# PPPSR-3 dimension and inverse kinematics, modelled in Dafny

A PPPSR-3 mechanism is a parallel robot whose end effector is carried by
three legs. Each leg ends in a redundant link that can turn about its local
z axis. `PPPSRDimension` (`src/pppsr_3/lib/inverse_kinematics.py`) is a
frozen record of the per-leg geometry:

- `u_i`: the mount positions.
- `O_i`: the mount orientations.
- `b_i`: the attachment offsets in the end-effector frame.
- `l_i`: the redundant link lengths.

From an end-effector pose (position `p`, orientation `R`) and one redundant
angle per leg, it computes each leg's joint target,
`p + R (b - Z(angle) (l, 0, 0)) - u`, in the world frame (`p_i`). It can also
give the same vector in the leg's mount frame (`p_i_local`). Finally, it
converts itself to a dictionary and back (`to_dict`, `from_dict`), with
rotations stored as quaternions in (x, y, z, w) order.

The project has four modules:

- `Vectors` (`vectors.dfy`): real 3-vectors and their dot and cross
  products.
- `Rotations` (`rotations.dfy`): the rotations the record uses.
  - A rotation is a nonzero quaternion (x, y, z, w).
  - `Apply` is the sandwich product `q v q*` divided by `|q|^2`, written in
    Rodrigues' form. It needs no square root.
  - `Inv` is the conjugate.
  - A rotation about z by an angle θ is the quaternion
    `(0, 0, sin(θ/2), cos(θ/2))`. An angle is therefore given by the cosine
    and sine of its half (`ZAngle`, a point of the unit circle), which keeps
    trigonometry out of the model.
  - The lemmas prove these facts about rotations:
    - `Inv` undoes `Apply` in both orders.
    - `Apply` keeps lengths and is linear.
    - `q` and `-q` are the same rotation.
    - The z-rotation turns the x-y plane by θ.
- `InverseKinematics` (`dimension.dfy`): the record and its two target
  computations.
  - The record is a subset type of four sequences of equal length; `New`
    refuses unequal ones.
  - `WorldTargets` models `p_i` and `LocalTargets` models `p_i_local`. Both
    are pure functions, so the record they read cannot change.
- `DimensionCodec` (`codec.dfy`): `to_dict` and `from_dict`.
  - The dictionary is a map from strings to document values (numbers, lists,
    text).
  - Reading takes the keys in the order the constructor call evaluates them:
    `u_i`, `O_i`, `b_i`, `l_i`.
  - Reading stops with an error at the first key that is missing or
    malformed, and builds the record through `New`.

`p_i` and `p_i_local` combine their sequences with Python's `zip`. Nothing in
the code checks that there is one angle per leg: an angle sequence of the
wrong length is truncated to the shorter length, not rejected, and the model
does the same.

## Model

| member | source | states |
|---|---|---|
| `InverseKinematics.New` | src/pppsr_3/lib/inverse_kinematics.py:24-27 | a record is built exactly when the four sequences have one common length, and it holds them unchanged; otherwise the result is the length-mismatch error |
| `InverseKinematics.Targets` | src/pppsr_3/lib/inverse_kinematics.py:39-41 | walking the four sequences together yields as many targets as the shortest sequence has entries, target k being leg k's formula on the k-th entries |
| `InverseKinematics.WorldTargets` | src/pppsr_3/lib/inverse_kinematics.py:29-42 | p_i yields min(N, number of angles) targets, target k being p + R(b_k - Z(angle_k)(l_k, 0, 0)) - u_k |
| `InverseKinematics.Locals` | src/pppsr_3/lib/inverse_kinematics.py:47-50 | pairing targets with orientations stops at the shorter sequence; entry k is the inverse of orientation k applied to target k |
| `InverseKinematics.LocalTargets` | src/pppsr_3/lib/inverse_kinematics.py:44-50 | p_i_local has as many entries as p_i, entry k being O_k inverse applied to the k-th world target |
| `InverseKinematics.TargetCount` | src/pppsr_3/lib/inverse_kinematics.py:39-41 | with at least N angles there are exactly N targets, with fewer angles there are as many targets as angles, and the local targets are as many as the world ones |
| `InverseKinematics.Link` | src/pppsr_3/lib/inverse_kinematics.py:34-36 | the redundant link (l, 0, 0) turned by θ about z reaches (l cos θ, l sin θ, 0) |
| `InverseKinematics.LegTargetFromAttachment` | src/pppsr_3/lib/inverse_kinematics.py:30-38 | a leg's target p + R(b - link) - u is its attachment point p + R b - u less the link turned by R |
| `InverseKinematics.ZeroLinkNoDisplacement` | src/pppsr_3/lib/inverse_kinematics.py:30-38 | a link of length zero removes the displacement term: the target is p + R b - u whatever the angle |
| `InverseKinematics.LinkLengthKept` | src/pppsr_3/lib/inverse_kinematics.py:30-38 | the target lies at distance exactly l from p + R b - u, for every pose and angle |
| `InverseKinematics.LegTargetTranslates` | src/pppsr_3/lib/inverse_kinematics.py:30-38 | moving the end-effector position by t moves a leg's target by t |
| `InverseKinematics.UnitLinkAtHome` | src/pppsr_3/lib/inverse_kinematics.py:30-38 | at the home pose, a leg at the origin with no offset and a unit link has its target at -(cos θ, sin θ, 0) |
| `InverseKinematics.UnitLinkAtHomeNoTurn` | src/pppsr_3/lib/inverse_kinematics.py:30-38 | at angle 0 that target is (-1, 0, 0) |
| `InverseKinematics.UnitLinkAtHomeQuarterTurn` | src/pppsr_3/lib/inverse_kinematics.py:30-38 | at 90 degrees that target is (0, -1, 0) |
| `InverseKinematics.WorldTargetZeroLink` | src/pppsr_3/lib/inverse_kinematics.py:29-42 | in p_i, a leg whose link length is zero has its target at p + R b_k - u_k |
| `InverseKinematics.HomeTarget` | src/pppsr_3/lib/inverse_kinematics.py:29-42 | at p = 0 and R = identity, a leg with zero offset and zero link has target -u_k |
| `InverseKinematics.HomeTargets` | src/pppsr_3/lib/inverse_kinematics.py:29-42 | with all offsets and links zero, every target at the home pose is the negated mount position |
| `InverseKinematics.ThreeLegsOnTheAxes` | src/pppsr_3/lib/inverse_kinematics.py:29-42 | three legs mounted at (1,0,0), (0,1,0), (0,0,1) with zero offsets and links give targets [(-1,0,0), (0,-1,0), (0,0,-1)] at the home pose |
| `InverseKinematics.UnrotatedMounts` | src/pppsr_3/lib/inverse_kinematics.py:44-50 | when every mount orientation is the identity rotation, whatever quaternion stands for it, p_i_local equals p_i |
| `InverseKinematics.LocalIdentity` | src/pppsr_3/lib/inverse_kinematics.py:47-50 | a leg whose orientation is the identity rotation, whatever quaternion stands for it, has local target equal to world target |
| `InverseKinematics.LocalBackToWorld` | src/pppsr_3/lib/inverse_kinematics.py:47-50 | O_k applied to the k-th local target gives the k-th world target back |
| `InverseKinematics.LocalKeepsLength` | src/pppsr_3/lib/inverse_kinematics.py:47-50 | a local target has the same length as its world target |
| `InverseKinematics.WorldLinkLengths` | src/pppsr_3/lib/inverse_kinematics.py:29-42 | every world target keeps its link at distance l_k from p + R b_k - u_k |
| `InverseKinematics.WorldTargetsTranslate` | src/pppsr_3/lib/inverse_kinematics.py:29-42 | translating the end effector by t translates every world target by t and keeps their number |
| `Rotations.ApplyIsSandwich` | src/pppsr_3/lib/inverse_kinematics.py:32 | applying a rotation r to v, in Rodrigues' form, is the vector part of the Hamilton product r ⊗ (v, 0) ⊗ r̄ divided by \|r\|² |
| `Rotations.Inv` | src/pppsr_3/lib/inverse_kinematics.py:48 | the inverse is a quaternion of the same norm whose Hamilton product with r, on either side, is the real \|r\|², so it is r's reciprocal up to that scale |
| `Rotations.ApplyIdentity` | src/pppsr_3/lib/inverse_kinematics.py:32 | the identity rotation moves no vector |
| `Rotations.InvIdentity` | src/pppsr_3/lib/inverse_kinematics.py:48 | the inverse of the identity is the identity |
| `Rotations.InvInv` | src/pppsr_3/lib/inverse_kinematics.py:48 | inverting twice gives the rotation back, and inverting keeps the quaternion's norm |
| `Rotations.InvCancels` | src/pppsr_3/lib/inverse_kinematics.py:48 | the inverse undoes a rotation: Inv(r) applied after r gives every vector back |
| `Rotations.ApplyInvCancels` | src/pppsr_3/lib/inverse_kinematics.py:48 | a rotation and its inverse undo each other in both orders |
| `Rotations.ApplyPreservesNorm` | src/pppsr_3/lib/inverse_kinematics.py:32 | a rotation keeps the length of every vector |
| `Rotations.ApplySub` | src/pppsr_3/lib/inverse_kinematics.py:32-37 | R(b - x) = R b - R x: a rotation is linear |
| `Rotations.ApplyZero` | src/pppsr_3/lib/inverse_kinematics.py:32-37 | a rotation fixes the origin |
| `Rotations.NegatedQuaternionSameRotation` | tests/test_dimension_serde.py:21-22 | q and -q have the same norm and move every vector alike, so quaternions read back may differ in sign and still be the same rotation |
| `Rotations.ZRotation` | src/pppsr_3/lib/inverse_kinematics.py:34 | the rotation about z by θ is a unit quaternion whose vector part is (0, 0, sin(θ/2)), so it turns about the z axis only |
| `Rotations.CosSin` | src/pppsr_3/lib/inverse_kinematics.py:34 | the full angle, from the half angle by the double-angle formulas, lies on the unit circle |
| `Rotations.ZRotationIsPlanar` | src/pppsr_3/lib/inverse_kinematics.py:34-36 | the z rotation by θ turns the x-y plane by θ and keeps z |
| `Rotations.ZRotationOfLink` | src/pppsr_3/lib/inverse_kinematics.py:34-36 | the z rotation takes (l, 0, 0) to (l cos θ, l sin θ, 0) |
| `Rotations.NoTurnFixes` | src/pppsr_3/lib/inverse_kinematics.py:34 | a whole number of turns moves nothing |
| `Rotations.HalfTurnReverses` | src/pppsr_3/lib/inverse_kinematics.py:34 | a half turn reverses x and y and keeps z |
| `Rotations.QuarterTurn` | src/pppsr_3/lib/inverse_kinematics.py:34 | a quarter turn takes (x, y, z) to (-y, x, z) |
| `DimensionCodec.VecValue` | src/pppsr_3/lib/inverse_kinematics.py:55 | a vector is written as a list that reads back as the same vector |
| `DimensionCodec.QuatValue` | src/pppsr_3/lib/inverse_kinematics.py:56-58 | a quaternion is written as a list of its components that reads back as the same quaternion |
| `DimensionCodec.Encode` | src/pppsr_3/lib/inverse_kinematics.py:52-61 | the document of four sequences has exactly the four keys, each a list as long as its sequence, entry k reading back as element k |
| `DimensionCodec.ToDict` | src/pppsr_3/lib/inverse_kinematics.py:52-61 | the dictionary has exactly the keys u_i, O_i, b_i, l_i, each a list of N entries; entry k of u_i and b_i is the vector's component list, of O_i the quaternion's components in (x, y, z, w) order, of l_i the link length |
| `DimensionCodec.DecodeVec` | src/pppsr_3/lib/inverse_kinematics.py:78 | an entry reads as a vector exactly when it is a list of three numbers, and the entry is then the list of the vector's components |
| `DimensionCodec.DecodeQuat` | src/pppsr_3/lib/inverse_kinematics.py:79 | an entry reads as a quaternion exactly when it is a list of four numbers, and the entry is then the list of the quaternion's components in (x, y, z, w) order |
| `DimensionCodec.DecodeRotation` | src/pppsr_3/lib/inverse_kinematics.py:79 | a quaternion entry becomes a rotation exactly when its norm is nonzero; otherwise the error says malformed or zero quaternion |
| `DimensionCodec.DecodeVecs` | src/pppsr_3/lib/inverse_kinematics.py:78 | a list reads as vectors exactly when every entry does; the vectors are as many as the entries and write back to them |
| `DimensionCodec.DecodeRotations` | src/pppsr_3/lib/inverse_kinematics.py:79 | a list reads as rotations exactly when every entry does; otherwise the error is that of the first entry that fails |
| `DimensionCodec.DecodeNums` | src/pppsr_3/lib/inverse_kinematics.py:81 | a list reads as link lengths exactly when every entry is a number |
| `DimensionCodec.Entries` | src/pppsr_3/lib/inverse_kinematics.py:78-81 | looking a key up fails with the missing-key error when it is absent, and with the malformed error when its value is not a list |
| `DimensionCodec.FromDict` | src/pppsr_3/lib/inverse_kinematics.py:74-82 | a successful read needs all four keys; a missing-key error names one of the four keys that is absent |
| `DimensionCodec.DecodeVecList` | src/pppsr_3/lib/inverse_kinematics.py:55 | reading back a written vector list gives the vectors |
| `DimensionCodec.DecodeRotationList` | src/pppsr_3/lib/inverse_kinematics.py:56-58 | reading back a written quaternion list gives the rotations |
| `DimensionCodec.DecodeNumList` | src/pppsr_3/lib/inverse_kinematics.py:60 | reading back a written number list gives the link lengths |
| `DimensionCodec.DecodeEncode` | src/pppsr_3/lib/inverse_kinematics.py:77-82 | reading the dictionary of any four sequences is the same as constructing a record from them |
| `DimensionCodec.RoundTrip` | tests/test_dimension_serde.py:9-24 | writing a record and reading it back gives the same record |
| `DimensionCodec.UnequalLengthsRefused` | src/pppsr_3/lib/inverse_kinematics.py:77-82 | a dictionary whose four lists differ in length is refused with the length-mismatch error |
| `DimensionCodec.OnlyCanonicalDocumentsRead` | src/pppsr_3/lib/inverse_kinematics.py:74-82 | a dictionary that reads back holds, under the four keys, exactly the dictionary of the record read |
| `DimensionCodec.OtherKeysIgnored` | src/pppsr_3/lib/inverse_kinematics.py:74-82 | keys other than the four do not affect reading |
| `DimensionCodec.MissingKeyRefused` | src/pppsr_3/lib/inverse_kinematics.py:78 | a dictionary without one of the four keys is refused, and without u_i it fails on that key |

## Left out

- `save_to_toml` and `load_from_toml` (`inverse_kinematics.py:63-72`) are file I/O plus TOML text encoding by foreign libraries. Saving and loading is modelled as `FromDict(ToDict(d))`, which is `RoundTrip`.
- Degrees are not converted to angles. `p_i` takes angles in degrees. The model takes each angle as the cosine and sine of its half, which is what `from_euler("z", ...)` builds its quaternion from. The trigonometry of that conversion is left out.
- Quaternion normalisation is not modelled.
  - scipy's `from_quat` normalises the quaternion it is given, and `as_quat` returns the normalised one.
  - The model keeps the quaternion as given and divides by its squared norm when applying it. The rotation is the same, and no square root is needed.
  - A non-unit quaternion is written back unchanged, where scipy would write it scaled to unit length.
- The model does not use floating point. All arithmetic is exact real arithmetic. Tolerances such as `approx_equal` are not modelled.
- `from_dict` is stricter in the model than in the code.
  - The code passes every `u_i` and `b_i` entry and the `l_i` list to `np.array`, which accepts any shape.
  - The model reads a vector only from a list of exactly three numbers, and link lengths only from a list of numbers. Anything else is the `Malformed` error.
  - Python's own exceptions are folded into the `Error` datatype: `AssertionError` from construction, `KeyError` for a missing key, and `ValueError` from `from_quat`.
- `FromDict`: its own contract states only the key facts. The round trip, the canonical-form property, the key order and the length check are stated by the lemmas beside it (`DecodeEncode`, `RoundTrip`, `OnlyCanonicalDocumentsRead`, `OtherKeysIgnored`, `MissingKeyRefused`, `UnequalLengthsRefused`).
- Rotation objects holding stacks of rotations, and numpy broadcasting of mis-shaped inputs, are not modelled. Each rotation is a single quaternion, and each vector has three components.
- The `__main__` demo (`inverse_kinematics.py:85-135`) only prints.
- `src/pppsr_3/__init__.py` holds only constant data (`DIMENSION`, `RDOF0`): a particular instance of the record with no behaviour of its own. It is not part of this model.
- The Zaber motion-controller helpers and the hardware integration test drive devices over a serial port. They are not part of this model.
