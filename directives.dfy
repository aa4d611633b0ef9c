/** Per-point directive dictionaries are stored with one-letter keys; the export
    renames them back to their field names through the fixed tables
    `lookatBack` (MMExport.py:124) and `cameraBack` (MMExport.py:293, 485). */
module Directives {
  import opened Values

  datatype Kind = LookAtKind | CameraKind

  const LookAtBack: map<char, string> := map[
    'a' := "longitude", 'b' := "latitude", 'c' := "altitude", 'd' := "altitudemode",
    'e' := "gxaltitudemode", 'f' := "heading", 'g' := "tilt", 'h' := "range",
    'i' := "duration", 'j' := "startheading", 'k' := "rotations", 'l' := "direction",
    'm' := "streetview"]

  const CameraBack: map<char, string> := map[
    'a' := "longitude", 'b' := "longitude_off", 'c' := "latitude", 'd' := "latitude_off",
    'e' := "altitude", 'f' := "altitudemode", 'g' := "gxaltitudemode", 'h' := "gxhoriz",
    'i' := "heading", 'j' := "roll", 'k' := "tilt", 'l' := "range",
    'm' := "follow_angle", 'n' := "streetview", 'o' := "hoffset"]

  /** The encoding table the camera editor (and the export test) writes with. */
  const CameraAlpha: map<string, char> := map[
    "longitude" := 'a', "longitude_off" := 'b', "latitude" := 'c', "latitude_off" := 'd',
    "altitude" := 'e', "altitudemode" := 'f', "gxaltitudemode" := 'g', "gxhoriz" := 'h',
    "heading" := 'i', "roll" := 'j', "tilt" := 'k', "range" := 'l',
    "follow_angle" := 'm', "streetview" := 'n', "hoffset" := 'o']

  function Back(kind: Kind): map<char, string> {
    match kind
    case LookAtKind => LookAtBack
    case CameraKind => CameraBack
  }

  ghost predicate Injective<K, V>(m: map<K, V>) {
    forall x, y :: x in m && y in m && m[x] == m[y] ==> x == y
  }

  /** The encoding table of the look-at editor: the inverse of `lookatBack`. */
  const LookAtAlpha: map<string, char> := map[
    "longitude" := 'a', "latitude" := 'b', "altitude" := 'c', "altitudemode" := 'd',
    "gxaltitudemode" := 'e', "heading" := 'f', "tilt" := 'g', "range" := 'h',
    "duration" := 'i', "startheading" := 'j', "rotations" := 'k', "direction" := 'l',
    "streetview" := 'm']

  /** A table that a second table undoes gives distinct names to distinct letters. */
  lemma LeftInverse<K, V>(m: map<K, V>, inv: map<V, K>)
    requires forall x :: x in m ==> m[x] in inv && inv[m[x]] == x
    ensures Injective(m)
  {
  }

  lemma LookAtUndone()
    ensures forall c :: c in LookAtBack ==> LookAtBack[c] in LookAtAlpha && LookAtAlpha[LookAtBack[c]] == c
  {
  }

  lemma CameraUndone()
    ensures forall c :: c in CameraBack ==> CameraBack[c] in CameraAlpha && CameraAlpha[CameraBack[c]] == c
  {
  }

  /** No two letters stand for the same field, in either table. */
  lemma BackInjective(kind: Kind)
    ensures Injective(Back(kind))
  {
    match kind
    case LookAtKind => LookAtUndone(); LeftInverse(LookAtBack, LookAtAlpha);
    case CameraKind => CameraUndone(); LeftInverse(CameraBack, CameraAlpha);
  }

  /** The renamed dictionary: every letter replaced by its field name, every
      value kept. */
  function Renaming(codes: map<char, Value>, back: map<char, string>): (named: map<string, Value>)
    requires codes.Keys <= back.Keys && Injective(back)
  {
    map k | k in codes :: back[k] := codes[k]
  }

  /** Renaming keeps every value under its field's name and nothing else. */
  lemma RenamingAt(codes: map<char, Value>, back: map<char, string>)
    requires codes.Keys <= back.Keys && Injective(back)
    ensures forall k :: k in codes ==> back[k] in Renaming(codes, back) && Renaming(codes, back)[back[k]] == codes[k]
    ensures Renaming(codes, back).Keys == set k | k in codes :: back[k]
  {
  }

  /** Renaming one more letter adds exactly its field, which was not there. */
  lemma RenamingPut(codes: map<char, Value>, back: map<char, string>, k: char, v: Value)
    requires codes.Keys <= back.Keys && Injective(back) && k in back && k !in codes
    ensures back[k] !in Renaming(codes, back)
    ensures Renaming(codes[k := v], back) == Renaming(codes, back)[back[k] := v]
  {
  }

  /** Renaming neither merges nor drops entries. */
  lemma {:induction false} RenamingSize(codes: map<char, Value>, back: map<char, string>)
    requires codes.Keys <= back.Keys && Injective(back)
    ensures |Renaming(codes, back)| == |codes|
    decreases |codes|
  {
    if codes != map[] {
      var k :| k in codes;
      var smaller := codes - {k};
      assert codes == smaller[k := codes[k]];
      RenamingPut(smaller, back, k, codes[k]);
      RenamingSize(smaller, back);
    }
  }

  /** The loop of the source over the dictionary's items, for any table
      that gives distinct names to distinct letters. */
  method Rename(codes: map<char, Value>, back: map<char, string>) returns (r: Result<map<string, Value>>)
    requires Injective(back)
    ensures r.Ok? <==> codes.Keys <= back.Keys
    ensures r.Ok? ==> r.value == Renaming(codes, back)
    ensures r.Err? ==> r.error == KeyError
  {
    var rest := codes.Keys;
    var named: map<string, Value> := map[];
    assert codes - rest == map[];
    while rest != {}
      invariant rest <= codes.Keys
      invariant (codes - rest).Keys <= back.Keys
      invariant named == Renaming(codes - rest, back)
      decreases rest
    {
      var k :| k in rest;
      if k !in back {
        return Err(KeyError);
      }
      assert codes - (rest - {k}) == (codes - rest)[k := codes[k]];
      RenamingPut(codes - rest, back, k, codes[k]);
      named := named[back[k] := codes[k]];
      rest := rest - {k};
    }
    assert codes - rest == codes;
    return Ok(named);
  }

  /** The field-named dictionary of a directive whose letters are all known. */
  function Decoded(codes: map<char, Value>, kind: Kind): map<string, Value>
    requires codes.Keys <= Back(kind).Keys
  {
    BackInjective(kind);
    Renaming(codes, Back(kind))
  }

  /** Decoding a look-at or camera dictionary. */
  method Decode(codes: map<char, Value>, kind: Kind) returns (r: Result<map<string, Value>>)
    ensures r.Ok? <==> codes.Keys <= Back(kind).Keys
    ensures r.Ok? ==> r.value == Decoded(codes, kind)
    ensures r.Ok? ==> |r.value| == |codes|
    ensures r.Err? ==> r.error == KeyError
  {
    BackInjective(kind);
    r := Rename(codes, Back(kind));
    if r.Ok? { RenamingSize(codes, Back(kind)); }
  }

  /** How the camera editor stores a dictionary: every field name replaced by
      its letter through an encoding table. */
  function Encoding(named: map<string, Value>, alpha: map<string, char>): (codes: map<char, Value>)
    requires named.Keys <= alpha.Keys && Injective(alpha)
  {
    map n | n in named :: alpha[n] := named[n]
  }

  function Encode(named: map<string, Value>): (codes: map<char, Value>)
    requires named.Keys <= CameraAlpha.Keys
  {
    CameraTables();
    Encoding(named, CameraAlpha)
  }

  /** The camera encoding table and `cameraBack` are inverse bijections. */
  lemma CameraTables()
    ensures Injective(CameraAlpha) && Injective(CameraBack)
    ensures forall n :: n in CameraAlpha ==> CameraAlpha[n] in CameraBack && CameraBack[CameraAlpha[n]] == n
  {
    BackInjective(CameraKind);
    AlphaInjective();
    AlphaBackInverse();
  }

  lemma AlphaInjective()
    ensures Injective(CameraAlpha)
  {
  }

  lemma AlphaBackInverse()
    ensures forall n :: n in CameraAlpha ==> CameraAlpha[n] in CameraBack && CameraBack[CameraAlpha[n]] == n
  {
  }

  /** Renaming through a table that undoes the encoding table gives back the
      encoded dictionary. */
  lemma InverseRoundTrip(named: map<string, Value>, alpha: map<string, char>, back: map<char, string>)
    requires named.Keys <= alpha.Keys && Injective(alpha) && Injective(back)
    requires forall n :: n in alpha ==> alpha[n] in back && back[alpha[n]] == n
    ensures Encoding(named, alpha).Keys <= back.Keys
    ensures Renaming(Encoding(named, alpha), back) == named
  {
    var codes := Encoding(named, alpha);
    assert codes.Keys <= back.Keys;
    var decoded := Renaming(codes, back);
    RenamingAt(codes, back);
    forall n | n in named ensures n in decoded && decoded[n] == named[n] {
      assert alpha[n] in codes;
    }
    forall n | n in decoded ensures n in named {
      var k :| k in codes && back[k] == n;
      var m :| m in named && alpha[m] == k;
    }
  }

  /** Decoding what the editor encoded gives back the original camera
      dictionary. */
  lemma CameraRoundTrip(named: map<string, Value>)
    requires named.Keys <= CameraAlpha.Keys
    ensures Encode(named).Keys <= CameraBack.Keys
    ensures (BackInjective(CameraKind); Renaming(Encode(named), CameraBack) == named)
  {
    CameraTables();
    InverseRoundTrip(named, CameraAlpha, CameraBack);
  }
}
