/**
 * The dictionary form of a dimension, the document the persisted file holds.
 * It has four keys, each holding one entry per leg: "u_i" and "b_i" hold
 * vectors as lists of three numbers, "O_i" holds rotations as lists of four
 * quaternion components in (x, y, z, w) order, and "l_i" holds link lengths
 * as numbers. Reading a dictionary back takes the keys in the order u_i,
 * O_i, b_i, l_i, stops at the first key that is missing or malformed, and
 * builds the dimension through New, so unequal lengths are refused as at
 * construction.
 */
module DimensionCodec {
  import opened Vectors
  import opened Rotations
  import opened InverseKinematics

  /** A value of the document. */
  datatype Value = Num(num: real) | List(items: seq<Value>) | Text(text: string)

  type Dict = map<string, Value>

  const MountsKey: string := "u_i"
  const OrientationsKey: string := "O_i"
  const OffsetsKey: string := "b_i"
  const LinksKey: string := "l_i"

  const Keys: set<string> := {MountsKey, OrientationsKey, OffsetsKey, LinksKey}

  datatype Option<+T> = None | Some(value: T)

  // ---------------------------------------------------------------------------
  // Writing
  // ---------------------------------------------------------------------------

  /** A vector as the list of its three components, which reads back as the same vector. */
  function VecValue(v: Vec3): (r: Value)
    ensures DecodeVec(r) == Some(v)
  {
    List([Num(v.x), Num(v.y), Num(v.z)])
  }

  /** A quaternion as the list of its components in (x, y, z, w) order, which reads back as the same quaternion. */
  function QuatValue(q: Quat): (r: Value)
    ensures DecodeQuat(r) == Some(q)
  {
    List([Num(q.x), Num(q.y), Num(q.z), Num(q.w)])
  }

  function VecList(vs: seq<Vec3>): Value {
    List(seq(|vs|, k requires 0 <= k < |vs| => VecValue(vs[k])))
  }

  function RotationList(rs: seq<Rotation>): Value {
    List(seq(|rs|, k requires 0 <= k < |rs| => QuatValue(rs[k])))
  }

  function NumList(xs: seq<real>): Value {
    List(seq(|xs|, k requires 0 <= k < |xs| => Num(xs[k])))
  }

  /**
   * The document of four per-leg sequences, whatever their lengths: the four
   * keys, each a list as long as its sequence, whose entries read back as the
   * sequence's elements.
   */
  function Encode(g: Legs): (m: Dict)
    ensures m.Keys == Keys && forall key :: key in m ==> m[key].List?
    ensures |m[MountsKey].items| == |g.mounts| && |m[OrientationsKey].items| == |g.orientations|
    ensures |m[OffsetsKey].items| == |g.offsets| && |m[LinksKey].items| == |g.links|
    ensures forall k :: 0 <= k < |g.mounts| ==> DecodeVec(m[MountsKey].items[k]) == Some(g.mounts[k])
    ensures forall k :: 0 <= k < |g.orientations| ==> DecodeQuat(m[OrientationsKey].items[k]) == Some(g.orientations[k])
    ensures forall k :: 0 <= k < |g.offsets| ==> DecodeVec(m[OffsetsKey].items[k]) == Some(g.offsets[k])
    ensures forall k :: 0 <= k < |g.links| ==> m[LinksKey].items[k] == Num(g.links[k])
  {
    map[MountsKey := VecList(g.mounts), OrientationsKey := RotationList(g.orientations),
        OffsetsKey := VecList(g.offsets), LinksKey := NumList(g.links)]
  }

  /** The document of a dimension: exactly the four keys, each a list with one entry per leg. */
  function ToDict(d: Dimension): (m: Dict)
    ensures m.Keys == Keys
    ensures forall key :: key in m ==> m[key].List? && |m[key].items| == LegCount(d)
    ensures forall k :: 0 <= k < LegCount(d) ==>
              m[MountsKey].items[k] == List([Num(d.mounts[k].x), Num(d.mounts[k].y), Num(d.mounts[k].z)]) &&
              m[OffsetsKey].items[k] == List([Num(d.offsets[k].x), Num(d.offsets[k].y), Num(d.offsets[k].z)]) &&
              m[OrientationsKey].items[k] == List([Num(d.orientations[k].x), Num(d.orientations[k].y),
                                                   Num(d.orientations[k].z), Num(d.orientations[k].w)]) &&
              m[LinksKey].items[k] == Num(d.links[k])
  {
    Encode(d)
  }

  // ---------------------------------------------------------------------------
  // Reading
  // ---------------------------------------------------------------------------

  /** A list of exactly three numbers, as a vector. */
  function DecodeVec(v: Value): (r: Option<Vec3>)
    ensures r.Some? <==> v.List? && |v.items| == 3 && v.items[0].Num? && v.items[1].Num? && v.items[2].Num?
    ensures r.Some? ==> v == List([Num(r.value.x), Num(r.value.y), Num(r.value.z)])
  {
    if v.List? && |v.items| == 3 && v.items[0].Num? && v.items[1].Num? && v.items[2].Num? then
      Some(Vec3(v.items[0].num, v.items[1].num, v.items[2].num))
    else
      None
  }

  /** A list of exactly four numbers, as a quaternion. */
  function DecodeQuat(v: Value): (r: Option<Quat>)
    ensures r.Some? <==> v.List? && |v.items| == 4 && v.items[0].Num? && v.items[1].Num? &&
                         v.items[2].Num? && v.items[3].Num?
    ensures r.Some? ==> v == List([Num(r.value.x), Num(r.value.y), Num(r.value.z), Num(r.value.w)])
  {
    if v.List? && |v.items| == 4 && v.items[0].Num? && v.items[1].Num? && v.items[2].Num? && v.items[3].Num? then
      Some(Quat(v.items[0].num, v.items[1].num, v.items[2].num, v.items[3].num))
    else
      None
  }

  /** A quaternion as a rotation; the zero quaternion is no rotation. */
  function DecodeRotation(key: string, v: Value): (r: Result<Rotation>)
    ensures r.Ok? <==> DecodeQuat(v).Some? && QNorm2(DecodeQuat(v).value) > 0.0
    ensures r.Ok? ==> QuatValue(r.value) == v
    ensures r.Err? ==> r.error == (if DecodeQuat(v).None? then Malformed(key) else ZeroQuaternion(key))
  {
    match DecodeQuat(v)
    case None => Err(Malformed(key))
    case Some(q) => if QNorm2(q) > 0.0 then Ok(q) else Err(ZeroQuaternion(key))
  }

  /** Every entry as a vector, or Malformed(key). */
  function DecodeVecs(key: string, items: seq<Value>): (r: Result<seq<Vec3>>)
    ensures r.Ok? <==> forall k :: 0 <= k < |items| ==> DecodeVec(items[k]).Some?
    ensures r.Ok? ==> |r.value| == |items| && forall k :: 0 <= k < |items| ==> VecValue(r.value[k]) == items[k]
    ensures r.Err? ==> r.error == Malformed(key)
  {
    if items == [] then Ok([])
    else
      match DecodeVec(items[0])
      case None => Err(Malformed(key))
      case Some(v) =>
        var vs :- DecodeVecs(key, items[1..]);
        Ok([v] + vs)
  }

  /** Every entry as a rotation, or the error of the first entry that is not one. */
  function DecodeRotations(key: string, items: seq<Value>): (r: Result<seq<Rotation>>)
    ensures r.Ok? <==> forall k :: 0 <= k < |items| ==> DecodeRotation(key, items[k]).Ok?
    ensures r.Ok? ==> |r.value| == |items| && forall k :: 0 <= k < |items| ==> QuatValue(r.value[k]) == items[k]
    ensures r.Err? ==> exists k :: 0 <= k < |items| && DecodeRotation(key, items[k]) == Err(r.error) &&
                                   forall j :: 0 <= j < k ==> DecodeRotation(key, items[j]).Ok?
  {
    if items == [] then Ok([])
    else
      var o :- DecodeRotation(key, items[0]);
      var os :- DecodeRotations(key, items[1..]);
      Ok([o] + os)
  }

  /** Every entry as a number, or Malformed(key). */
  function DecodeNums(key: string, items: seq<Value>): (r: Result<seq<real>>)
    ensures r.Ok? <==> forall k :: 0 <= k < |items| ==> items[k].Num?
    ensures r.Ok? ==> |r.value| == |items| && forall k :: 0 <= k < |items| ==> Num(r.value[k]) == items[k]
    ensures r.Err? ==> r.error == Malformed(key)
  {
    if items == [] then Ok([])
    else if !items[0].Num? then Err(Malformed(key))
    else
      var xs :- DecodeNums(key, items[1..]);
      Ok([items[0].num] + xs)
  }

  /** The list under key: MissingKey when absent, Malformed when not a list. */
  function Entries(m: Dict, key: string): (r: Result<seq<Value>>)
    ensures r.Ok? <==> key in m && m[key].List?
    ensures r.Ok? ==> r.value == m[key].items
    ensures r.Err? ==> r.error == (if key in m then Malformed(key) else MissingKey(key))
  {
    if key !in m then Err(MissingKey(key))
    else if !m[key].List? then Err(Malformed(key))
    else Ok(m[key].items)
  }

  /** Reads a dimension back from its document; keys other than the four are ignored. */
  function FromDict(m: Dict): (r: Result<Dimension>)
    ensures r.Ok? ==> Keys <= m.Keys
    ensures r.Err? && r.error.MissingKey? ==> r.error.key in Keys && r.error.key !in m
  {
    var uItems :- Entries(m, MountsKey);
    var us :- DecodeVecs(MountsKey, uItems);
    var oItems :- Entries(m, OrientationsKey);
    var os :- DecodeRotations(OrientationsKey, oItems);
    var bItems :- Entries(m, OffsetsKey);
    var bs :- DecodeVecs(OffsetsKey, bItems);
    var lItems :- Entries(m, LinksKey);
    var ls :- DecodeNums(LinksKey, lItems);
    New(us, os, bs, ls)
  }

  // ---------------------------------------------------------------------------
  // Round trips
  // ---------------------------------------------------------------------------

  lemma DecodeVecList(key: string, vs: seq<Vec3>)
    ensures DecodeVecs(key, VecList(vs).items) == Ok(vs)
  {
    var items := VecList(vs).items;
    forall k | 0 <= k < |items|
      ensures DecodeVec(items[k]).Some?
    {
      assert items[k] == VecValue(vs[k]);
    }
    var r := DecodeVecs(key, items);
    assert r.Ok? && |r.value| == |vs|;
    forall k | 0 <= k < |vs|
      ensures r.value[k] == vs[k]
    {
      assert VecValue(r.value[k]) == items[k] == VecValue(vs[k]);
    }
    assert r.value == vs;
  }

  lemma DecodeRotationList(key: string, rs: seq<Rotation>)
    ensures DecodeRotations(key, RotationList(rs).items) == Ok(rs)
  {
    var items := RotationList(rs).items;
    forall k | 0 <= k < |items|
      ensures DecodeRotation(key, items[k]).Ok?
    {
      assert items[k] == QuatValue(rs[k]);
    }
    var r := DecodeRotations(key, items);
    assert r.Ok? && |r.value| == |rs|;
    forall k | 0 <= k < |rs|
      ensures r.value[k] == rs[k]
    {
      assert QuatValue(r.value[k]) == items[k] == QuatValue(rs[k]);
    }
    assert r.value == rs;
  }

  lemma DecodeNumList(key: string, xs: seq<real>)
    ensures DecodeNums(key, NumList(xs).items) == Ok(xs)
  {
    var items := NumList(xs).items;
    assert forall k :: 0 <= k < |items| ==> items[k] == Num(xs[k]);
    var r := DecodeNums(key, items);
    assert r.Ok? && |r.value| == |xs|;
    forall k | 0 <= k < |xs|
      ensures r.value[k] == xs[k]
    {
      assert Num(r.value[k]) == items[k] == Num(xs[k]);
    }
    assert r.value == xs;
  }

  /** Reading the document of any four sequences is building a dimension from them. */
  lemma DecodeEncode(g: Legs)
    ensures FromDict(Encode(g)) == New(g.mounts, g.orientations, g.offsets, g.links)
  {
    var m := Encode(g);
    DecodeVecList(MountsKey, g.mounts);
    DecodeRotationList(OrientationsKey, g.orientations);
    DecodeVecList(OffsetsKey, g.offsets);
    DecodeNumList(LinksKey, g.links);
    assert Entries(m, MountsKey) == Ok(VecList(g.mounts).items);
    assert Entries(m, OrientationsKey) == Ok(RotationList(g.orientations).items);
    assert Entries(m, OffsetsKey) == Ok(VecList(g.offsets).items);
    assert Entries(m, LinksKey) == Ok(NumList(g.links).items);
  }

  /** Writing a dimension and reading it back gives the same dimension. */
  lemma RoundTrip(d: Dimension)
    ensures FromDict(ToDict(d)) == Ok(d)
  {
    DecodeEncode(d);
  }

  /** A document whose four lists differ in length is refused, as construction refuses them. */
  lemma UnequalLengthsRefused(g: Legs)
    requires !SameLength(g)
    ensures FromDict(Encode(g)) == Err(LengthMismatch)
  {
    DecodeEncode(g);
  }

  /** A document that reads back is, on the four keys, the document of what it reads back to. */
  lemma OnlyCanonicalDocumentsRead(m: Dict)
    requires FromDict(m).Ok?
    ensures forall key :: key in Keys ==> key in m && m[key] == ToDict(FromDict(m).value)[key]
  {
    var d := FromDict(m).value;
    var t := ToDict(d);
    var us := m[MountsKey].items;
    var os := m[OrientationsKey].items;
    var bs := m[OffsetsKey].items;
    var ls := m[LinksKey].items;
    assert DecodeVecs(MountsKey, us) == Ok(d.mounts);
    assert DecodeRotations(OrientationsKey, os) == Ok(d.orientations);
    assert DecodeVecs(OffsetsKey, bs) == Ok(d.offsets);
    assert DecodeNums(LinksKey, ls) == Ok(d.links);
    assert us == t[MountsKey].items;
    assert os == t[OrientationsKey].items;
    assert bs == t[OffsetsKey].items;
    assert ls == t[LinksKey].items;
  }

  /** Only the four keys are read: documents that agree on them read alike. */
  lemma OtherKeysIgnored(m1: Dict, m2: Dict)
    requires forall key :: key in Keys ==> (key in m1 <==> key in m2)
    requires forall key :: key in Keys && key in m1 ==> m1[key] == m2[key]
    ensures FromDict(m1) == FromDict(m2)
  {
    assert Entries(m1, MountsKey) == Entries(m2, MountsKey);
    assert Entries(m1, OrientationsKey) == Entries(m2, OrientationsKey);
    assert Entries(m1, OffsetsKey) == Entries(m2, OffsetsKey);
    assert Entries(m1, LinksKey) == Entries(m2, LinksKey);
  }

  /** Without "u_i" the read fails on that key first; a missing later key fails the read too. */
  lemma MissingKeyRefused(m: Dict, key: string)
    requires key in Keys && key !in m
    ensures FromDict(m).Err?
    ensures MountsKey !in m ==> FromDict(m) == Err(MissingKey(MountsKey))
  {
  }
}
