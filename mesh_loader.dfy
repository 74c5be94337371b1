/** The Wavefront OBJ subset LoadMesh reads (MeshLoader.cpp). The file is the
    sequence of its lines; float parsing is left abstract, integer parsing of
    face fields follows std::stoi. Positions, texture coordinates and normals
    are collected in file order, then every face vertex `v/vt/vn` copies one of
    each, 1-based, into the final arrays, indexed 0, 1, ..., n - 1. */
module MeshLoader {
  import opened Wrappers
  import opened Glm
  import opened Assets
  import opened Text
  import opened MeshUtil

  /** `stringstream >> x >> y >> z` on the rest of a "v " or "vn" line. */
  const ParseVec3: string -> Vec3
  /** `stringstream >> s >> t` on the rest of a "vt" line. */
  const ParseVec2: string -> Vec2

  const INT_MIN: int := -0x8000_0000
  const INT_MAX: int := 0x7FFF_FFFF

  const NUM_VERTICES_PER_FACE: nat := 3
  const DELIM: char := '/'
  /** The assertion of the Mesh constructor LoadMesh ends with: at least one index. */
  const NO_INDICES: string := "m_numIndices != 0"

  // ------------------------------------------------------------ characters

  /** The characters std::isspace accepts in the "C" locale. */
  predicate IsSpace(c: char) {
    c == ' ' || c == '\t' || c == '\n' || c == '\r' || c == '\U{000B}' || c == '\U{000C}'
  }

  /** First position at or after `from` that is not white space. */
  function SkipSpaces(s: string, from: nat): (r: nat)
    requires from <= |s|
    ensures from <= r <= |s| && (r < |s| ==> !IsSpace(s[r]))
    ensures forall k :: from <= k < r ==> IsSpace(s[k])
    decreases |s| - from
  {
    if from == |s| || !IsSpace(s[from]) then from else SkipSpaces(s, from + 1)
  }

  /** End of the run of non-space characters starting at `from`. */
  function WordEnd(s: string, from: nat): (r: nat)
    requires from <= |s|
    ensures from <= r <= |s| && (r < |s| ==> IsSpace(s[r]))
    ensures forall k :: from <= k < r ==> !IsSpace(s[k])
    decreases |s| - from
  {
    if from == |s| || IsSpace(s[from]) then from else WordEnd(s, from + 1)
  }

  /** `stream >> token` reading from position `from`: leading white space
      skipped, then a maximal run of other characters; "" at the end of input. */
  function ReadToken(s: string, from: nat): (r: (string, nat))
    requires from <= |s|
    ensures r.1 <= |s|
    ensures forall k :: 0 <= k < |r.0| ==> !IsSpace(r.0[k])
  {
    var start := SkipSpaces(s, from);
    var end := WordEnd(s, start);
    (s[start..end], end)
  }

  /** Stream position after reading n tokens. */
  function TokenCursor(s: string, n: nat): (r: nat)
    ensures r <= |s|
  {
    if n == 0 then 0 else ReadToken(s, TokenCursor(s, n - 1)).1
  }

  /** The three tokens a face line reads after its "f " prefix. */
  function FaceTokens(rest: string): (r: seq<string>)
    ensures |r| == NUM_VERTICES_PER_FACE
  {
    seq(NUM_VERTICES_PER_FACE, i requires 0 <= i => ReadToken(rest, TokenCursor(rest, i)).0)
  }

  // ------------------------------------------------------------- std::stoi

  function DigitsEnd(s: string, from: nat): (r: nat)
    requires from <= |s|
    ensures from <= r <= |s| && (r < |s| ==> !IsDigit(s[r]))
    ensures forall k :: from <= k < r ==> IsDigit(s[k])
    decreases |s| - from
  {
    if from == |s| || !IsDigit(s[from]) then from else DigitsEnd(s, from + 1)
  }

  /** Value of a string of decimal digits. */
  function DigitsValue(ds: string): nat
    requires forall k :: 0 <= k < |ds| ==> IsDigit(ds[k])
    decreases |ds|
  {
    if |ds| == 0 then 0 else 10 * DigitsValue(ds[..|ds| - 1]) + DigitValue(ds[|ds| - 1])
  }

  /** std::stoi: optional white space, an optional sign and at least one digit,
      read as far as the digits go; no digit throws std::invalid_argument, a
      value outside int throws std::out_of_range. */
  function Stoi(s: string): (r: Result<int>)
    ensures r.Ok? ==> INT_MIN <= r.value <= INT_MAX
  {
    var i := SkipSpaces(s, 0);
    var negative := i < |s| && s[i] == '-';
    var j := if i < |s| && (s[i] == '+' || s[i] == '-') then i + 1 else i;
    var k := DigitsEnd(s, j);
    if k == j then Fatal("std::invalid_argument")
    else
      var magnitude: int := DigitsValue(s[j..k]);
      var value: int := if negative then -magnitude else magnitude;
      if value < INT_MIN || INT_MAX < value then Fatal("std::out_of_range") else Ok(value)
  }

  lemma {:induction false} DigitsValueOfNatToString(n: nat)
    ensures DigitsValue(NatToString(n)) == n
    decreases n
  {
    if n >= 10 {
      var s, q, r := NatToString(n), n / 10, n % 10;
      assert s == NatToString(q) + [DigitChar(r)];
      assert s[..|s| - 1] == NatToString(q) && s[|s| - 1] == DigitChar(r);
      assert DigitsValue(s) == 10 * DigitsValue(NatToString(q)) + DigitValue(DigitChar(r));
      DigitsValueOfNatToString(q);
      assert n == 10 * q + r;
    }
  }

  /** std::stoi reads back what std::to_string writes. */
  lemma StoiOfNatToString(n: nat)
    requires n <= INT_MAX
    ensures Stoi(NatToString(n)) == Ok(n)
  {
    var s := NatToString(n);
    assert !IsSpace(s[0]) && s[0] != '+' && s[0] != '-';
    assert SkipSpaces(s, 0) == 0;
    assert DigitsEnd(s, 0) == |s|;
    assert s[0..|s|] == s;
    DigitsValueOfNatToString(n);
  }

  // ------------------------------------------------------- face tokens

  /** std::string::find(c, from). */
  function Find(s: string, c: char, from: nat): (r: Option<nat>)
    ensures r.Some? ==> from <= r.value < |s| && s[r.value] == c
    ensures r.Some? ==> forall k :: from <= k < r.value ==> s[k] != c
    ensures r.None? ==> forall k :: from <= k < |s| ==> s[k] != c
    decreases |s| - from
  {
    if from >= |s| then None else if s[from] == c then Some(from) else Find(s, c, from + 1)
  }

  /** The fields of s from position `from` on, separated by c. */
  function SplitFrom(s: string, c: char, from: nat): (r: seq<string>)
    requires from <= |s|
    ensures |r| >= 1
    decreases |s| - from
  {
    match Find(s, c, from)
    case None => [s[from..]]
    case Some(i) => [s[from..i]] + SplitFrom(s, c, i + 1)
  }

  /** Each field as stoi(field) - 1, stopping at the first field stoi rejects. */
  function FieldValues(fields: seq<string>): Result<seq<int>>
    decreases |fields|
  {
    if |fields| == 0 then Ok([])
    else
      match Stoi(fields[0])
      case Fatal(e) => Fatal(e)
      case Ok(v) =>
        match FieldValues(fields[1..])
        case Fatal(e) => Fatal(e)
        case Ok(vs) => Ok([v - 1] + vs)
  }

  /** Reading succeeds exactly when stoi accepts every field, and then gives
      one 0-based value per field. */
  lemma {:induction false} FieldValuesMeaning(fields: seq<string>)
    ensures var r := FieldValues(fields);
      (r.Ok? <==> forall k :: 0 <= k < |fields| ==> Stoi(fields[k]).Ok?) &&
      (r.Ok? ==> |r.value| == |fields| && forall k :: 0 <= k < |fields| ==> r.value[k] == Stoi(fields[k]).value - 1)
    decreases |fields|
  {
    if |fields| > 0 {
      FieldValuesMeaning(fields[1..]);
      assert forall k :: 1 <= k < |fields| ==> fields[k] == fields[1..][k - 1];
    }
  }

  function Prepend(done: seq<int>, r: Result<seq<int>>): Result<seq<int>> {
    match r
    case Ok(vs) => Ok(done + vs)
    case Fatal(e) => Fatal(e)
  }

  lemma FieldValuesCons(fields: seq<string>)
    requires |fields| > 0
    ensures FieldValues(fields) == if Stoi(fields[0]).Fatal? then Fatal(Stoi(fields[0]).reason)
      else Prepend([Stoi(fields[0]).value - 1], FieldValues(fields[1..]))
  {
  }

  lemma PrependTwice(a: seq<int>, b: seq<int>, r: Result<seq<int>>)
    ensures Prepend(a, Prepend(b, r)) == Prepend(a + b, r)
    ensures Prepend([], r) == r
  {
    if r.Ok? {
      assert a + (b + r.value) == (a + b) + r.value;
      assert [] + r.value == r.value;
    }
  }

  /** The field of s that starts at `pos`, and where the next one starts. */
  function FieldAt(s: string, pos: nat): string
    requires pos <= |s|
  {
    match Find(s, DELIM, pos)
    case None => s[pos..]
    case Some(i) => s[pos..i]
  }

  /** The fields from `pos` on are the field at `pos` followed by those after
      the next '/', if there is one. */
  lemma SplitFromCons(s: string, pos: nat)
    requires pos <= |s|
    ensures SplitFrom(s, DELIM, pos)[0] == FieldAt(s, pos)
    ensures Find(s, DELIM, pos).None? ==> SplitFrom(s, DELIM, pos)[1..] == []
    ensures Find(s, DELIM, pos).Some? ==> SplitFrom(s, DELIM, pos)[1..] == SplitFrom(s, DELIM, Find(s, DELIM, pos).value + 1)
  {
  }

  /** An accepted first field puts its value after those read before it. */
  lemma PrependFieldValues(done: seq<int>, fields: seq<string>)
    requires |fields| > 0 && Stoi(fields[0]).Ok?
    ensures Prepend(done, FieldValues(fields)) == Prepend(done + [Stoi(fields[0]).value - 1], FieldValues(fields[1..]))
  {
    FieldValuesCons(fields);
    PrependTwice(done, [Stoi(fields[0]).value - 1], FieldValues(fields[1..]));
  }

  /** Reading the field at `pos` when stoi rejects it ends the token. */
  lemma ReadFieldFails(s: string, pos: nat, done: seq<int>)
    requires pos <= |s| && Stoi(FieldAt(s, pos)).Fatal?
    ensures Prepend(done, FieldValues(SplitFrom(s, DELIM, pos))) == Fatal(Stoi(FieldAt(s, pos)).reason)
  {
    SplitFromCons(s, pos);
    FieldValuesCons(SplitFrom(s, DELIM, pos));
  }

  /** Reading an accepted field joins its value to those before it, followed
      by the fields after the next '/', or by nothing when there is none. */
  lemma ReadFieldJoins(s: string, pos: nat, done: seq<int>)
    requires pos <= |s| && Stoi(FieldAt(s, pos)).Ok?
    ensures var rest := if Find(s, DELIM, pos).None? then Ok([]) else FieldValues(SplitFrom(s, DELIM, Find(s, DELIM, pos).value + 1));
      Prepend(done, FieldValues(SplitFrom(s, DELIM, pos))) == Prepend(done + [Stoi(FieldAt(s, pos)).value - 1], rest)
  {
    var fields := SplitFrom(s, DELIM, pos);
    SplitFromCons(s, pos);
    PrependFieldValues(done, fields);
    if Find(s, DELIM, pos).None? {
      assert FieldValues(fields[1..]) == Ok([]);
    }
  }

  /** One pass of the `while(!endOfDelims)` loop: find the next '/', cut the
      field out, convert it with stoi and subtract one. */
  method ReadField(s: string, pos: nat, vertexAttribs: seq<int>)
    returns (r: Result<seq<int>>, endOfDelims: bool, next: nat)
    requires pos <= |s|
    ensures next <= |s| && (if endOfDelims then next == pos else pos < next)
    ensures r.Fatal? ==> Prepend(vertexAttribs, FieldValues(SplitFrom(s, DELIM, pos))) == Fatal(r.reason)
    ensures r.Ok? && endOfDelims ==> Prepend(vertexAttribs, FieldValues(SplitFrom(s, DELIM, pos))) == Ok(r.value)
    ensures r.Ok? && !endOfDelims ==>
      Prepend(vertexAttribs, FieldValues(SplitFrom(s, DELIM, pos))) == Prepend(r.value, FieldValues(SplitFrom(s, DELIM, next)))
  {
    var curDelimIndex := Find(s, DELIM, pos);
    endOfDelims := curDelimIndex.None?;
    var num := FieldAt(s, pos);
    next := if endOfDelims then pos else curDelimIndex.value + 1;
    var value := Stoi(num);
    if value.Fatal? {
      ReadFieldFails(s, pos, vertexAttribs);
      return Fatal(value.reason), endOfDelims, next;
    }
    ReadFieldJoins(s, pos, vertexAttribs);
    r := Ok(vertexAttribs + [value.value - 1]);
    if endOfDelims {
      assert vertexAttribs + [value.value - 1] + [] == r.value;
    }
  }

  /** The inner loop of LoadMesh over one face token `v/vt/vn`: split on '/',
      every field converted by stoi(field) - 1. */
  method ParseFaceVertex(s: string) returns (r: Result<seq<int>>)
    ensures r == FieldValues(SplitFrom(s, DELIM, 0))
  {
    var vertexAttribs: seq<int> := [];
    var pos := 0;
    var endOfDelims := false;
    PrependTwice([], [], FieldValues(SplitFrom(s, DELIM, 0)));
    while !endOfDelims
      invariant 0 <= pos <= |s|
      invariant !endOfDelims ==> FieldValues(SplitFrom(s, DELIM, 0)) == Prepend(vertexAttribs, FieldValues(SplitFrom(s, DELIM, pos)))
      invariant endOfDelims ==> FieldValues(SplitFrom(s, DELIM, 0)) == Ok(vertexAttribs)
      decreases |s| - pos + (if endOfDelims then 0 else 1)
    {
      var field;
      field, endOfDelims, pos := ReadField(s, pos, vertexAttribs);
      if field.Fatal? {
        return field;
      }
      vertexAttribs := field.value;
    }
    return Ok(vertexAttribs);
  }

  lemma {:induction false} FindFirst(s: string, c: char, from: nat, k: nat)
    requires from <= k < |s| && s[k] == c
    requires forall j :: from <= j < k ==> s[j] != c
    ensures Find(s, c, from) == Some(k)
    decreases k - from
  {
    if from < k {
      FindFirst(s, c, from + 1, k);
    }
  }

  /** The token `a/b/c` a writer of 1-based OBJ indices emits for the 0-based
      vertex (position a - 1, texture coordinate b - 1, normal c - 1). */
  function FaceToken(p: nat, t: nat, n: nat): string {
    NatToString(p + 1) + "/" + NatToString(t + 1) + "/" + NatToString(n + 1)
  }

  lemma NoDelimInNumber(n: nat)
    ensures forall k :: 0 <= k < |NatToString(n)| ==> NatToString(n)[k] != DELIM
  {
  }

  lemma SplitThree(a: string, b: string, c: string)
    requires forall k :: 0 <= k < |a| ==> a[k] != DELIM
    requires forall k :: 0 <= k < |b| ==> b[k] != DELIM
    requires forall k :: 0 <= k < |c| ==> c[k] != DELIM
    ensures SplitFrom(a + "/" + b + "/" + c, DELIM, 0) == [a, b, c]
  {
    var s := a + "/" + b + "/" + c;
    var i, j := |a|, |a| + 1 + |b|;
    assert SplitFrom(s, DELIM, j + 1) == [c] by {
      assert s[j + 1..] == c;
      assert Find(s, DELIM, j + 1) == None by {
        forall k | j + 1 <= k < |s| ensures s[k] != DELIM { assert s[k] == c[k - j - 1]; }
      }
    }
    assert SplitFrom(s, DELIM, i + 1) == [b] + SplitFrom(s, DELIM, j + 1) by {
      assert s[i + 1..j] == b && s[j] == DELIM;
      forall k | i + 1 <= k < j ensures s[k] != DELIM { assert s[k] == b[k - i - 1]; }
      FindFirst(s, DELIM, i + 1, j);
    }
    assert SplitFrom(s, DELIM, 0) == [a] + SplitFrom(s, DELIM, i + 1) by {
      assert s[..i] == a && s[i] == DELIM;
      forall k | 0 <= k < i ensures s[k] != DELIM { assert s[k] == a[k]; }
      FindFirst(s, DELIM, 0, i);
    }
  }

  /** Three fields stoi reads as p + 1, t + 1 and n + 1 give (p, t, n). */
  lemma FieldValuesThree(a: string, b: string, c: string, p: int, t: int, n: int)
    requires Stoi(a) == Ok(p + 1) && Stoi(b) == Ok(t + 1) && Stoi(c) == Ok(n + 1)
    ensures FieldValues([a, b, c]) == Ok([p, t, n])
  {
    assert [a, b, c][1..] == [b, c];
    assert [b, c][1..] == [c];
    assert [c][1..] == [];
    FieldValuesCons([c]);
    FieldValuesCons([b, c]);
    FieldValuesCons([a, b, c]);
    assert FieldValues([c]) == Ok([n]) by {
      assert [n] + [] == [n];
    }
    assert FieldValues([b, c]) == Prepend([t], Ok([n]));
    assert [t] + [n] == [t, n];
    assert FieldValues([a, b, c]) == Prepend([p], Ok([t, n]));
    assert [p] + [t, n] == [p, t, n];
  }

  /** Reading a face token undoes the 1-based numbering: `p+1/t+1/n+1` gives (p, t, n). */
  lemma FaceTokenRoundTrip(p: nat, t: nat, n: nat)
    requires p < INT_MAX && t < INT_MAX && n < INT_MAX
    ensures FieldValues(SplitFrom(FaceToken(p, t, n), DELIM, 0)) == Ok([p, t, n])
  {
    var a, b, c := NatToString(p + 1), NatToString(t + 1), NatToString(n + 1);
    NoDelimInNumber(p + 1);
    NoDelimInNumber(t + 1);
    NoDelimInNumber(n + 1);
    SplitThree(a, b, c);
    StoiOfNatToString(p + 1);
    StoiOfNatToString(t + 1);
    StoiOfNatToString(n + 1);
    FieldValuesThree(a, b, c, p, t, n);
  }

  // ------------------------------------------------------------ lines

  /** The six vectors LoadMesh fills: the lists in file order, and the
      per-face-vertex copies. */
  datatype ObjData = ObjData(
    positions: seq<Vec3>, texCoords: seq<Vec2>, normals: seq<Vec3>,
    finalPositions: seq<Vec3>, finalTexCoords: seq<Vec2>, finalNormals: seq<Vec3>)

  const EMPTY: ObjData := ObjData([], [], [], [], [], [])

  /** One face vertex: copy position, texture coordinate and normal by index.
      A missing field or an index outside its list reads out of bounds. */
  function AddFaceVertex(st: ObjData, attribs: seq<int>): (r: Result<ObjData>)
    ensures r.Ok? <==> (|attribs| >= 3 && 0 <= attribs[0] < |st.positions| &&
      0 <= attribs[1] < |st.texCoords| && 0 <= attribs[2] < |st.normals|)
    ensures r.Ok? ==> r.value == st.(
      finalPositions := st.finalPositions + [st.positions[attribs[0]]],
      finalTexCoords := st.finalTexCoords + [st.texCoords[attribs[1]]],
      finalNormals := st.finalNormals + [st.normals[attribs[2]]])
  {
    if |attribs| < 3 then Fatal("vertexAttribs index out of range")
    else if !(0 <= attribs[0] < |st.positions|) then Fatal("position index out of range")
    else if !(0 <= attribs[1] < |st.texCoords|) then Fatal("texture coordinate index out of range")
    else if !(0 <= attribs[2] < |st.normals|) then Fatal("normal index out of range")
    else Ok(st.(
      finalPositions := st.finalPositions + [st.positions[attribs[0]]],
      finalTexCoords := st.finalTexCoords + [st.texCoords[attribs[1]]],
      finalNormals := st.finalNormals + [st.normals[attribs[2]]]))
  }

  /** The result of adding the face vertex written as `token`. */
  function AddFaceToken(st: ObjData, token: string): Result<ObjData> {
    match FieldValues(SplitFrom(token, DELIM, 0))
    case Fatal(e) => Fatal(e)
    case Ok(attribs) => AddFaceVertex(st, attribs)
  }

  /** The face vertices of `tokens`, in order, stopping at the first failure. */
  function AddFaceVertices(st: ObjData, tokens: seq<string>): Result<ObjData>
    decreases |tokens|
  {
    if |tokens| == 0 then Ok(st)
    else
      match AddFaceToken(st, tokens[0])
      case Fatal(e) => Fatal(e)
      case Ok(st') => AddFaceVertices(st', tokens[1..])
  }

  /** What one line does: the prefixes are tested in the order "v ", "vt",
      "vn", "f "; any other line is ignored. */
  function ParseLine(st: ObjData, line: string): Result<ObjData> {
    if StartsWith(line, "v ") then Ok(st.(positions := st.positions + [ParseVec3(line[2..])]))
    else if StartsWith(line, "vt") then Ok(st.(texCoords := st.texCoords + [ParseVec2(line[2..])]))
    else if StartsWith(line, "vn") then Ok(st.(normals := st.normals + [ParseVec3(line[2..])]))
    else if StartsWith(line, "f ") then AddFaceVertices(st, FaceTokens(line[2..]))
    else Ok(st)
  }

  /** The remaining lines, from state st on, stopping at the first failure. */
  function ParseLines(st: ObjData, lines: seq<string>): Result<ObjData>
    decreases |lines|
  {
    if |lines| == 0 then Ok(st)
    else
      match ParseLine(st, lines[0])
      case Fatal(e) => Fatal(e)
      case Ok(st') => ParseLines(st', lines[1..])
  }

  /** LoadMesh's outcome: None when the file cannot be opened, Fatal when
      the lines fail or give no vertex for the Mesh constructor to index. */
  function LoadedMesh(file: Option<seq<string>>): Result<Option<Mesh>> {
    match file
    case None => Ok(None)
    case Some(lines) =>
      match ParseLines(EMPTY, lines)
      case Fatal(e) => Fatal(e)
      case Ok(st) =>
        if |st.finalPositions| == 0 then Fatal(NO_INDICES)
        else Ok(Some(Mesh(st.finalPositions, st.finalTexCoords, st.finalNormals, Iota(|st.finalPositions|))))
  }

  /** The three face vertices of an "f " line (the loop over
      NUM_VERTICES_PER_FACE in LoadMesh), given the rest of the line; the
      result is the three final arrays. */
  method ReadFace(positions: seq<Vec3>, texCoords: seq<Vec2>, normals: seq<Vec3>,
                  finalPositions: seq<Vec3>, finalTexCoords: seq<Vec2>, finalNormals: seq<Vec3>, rest: string)
    returns (r: Result<(seq<Vec3>, seq<Vec2>, seq<Vec3>)>)
    ensures var spec := AddFaceVertices(ObjData(positions, texCoords, normals, finalPositions, finalTexCoords, finalNormals), FaceTokens(rest));
      (r.Ok? <==> spec.Ok?) && (r.Fatal? ==> r.reason == spec.reason) &&
      (r.Ok? ==> spec.value == ObjData(positions, texCoords, normals, r.value.0, r.value.1, r.value.2))
  {
    ghost var spec := AddFaceVertices(ObjData(positions, texCoords, normals, finalPositions, finalTexCoords, finalNormals), FaceTokens(rest));
    var fp, ft, fn := finalPositions, finalTexCoords, finalNormals;
    var cursor := 0;
    var i := 0;
    while i < NUM_VERTICES_PER_FACE
      invariant 0 <= i <= NUM_VERTICES_PER_FACE && cursor == TokenCursor(rest, i)
      invariant spec == AddFaceVertices(ObjData(positions, texCoords, normals, fp, ft, fn), FaceTokens(rest)[i..])
    {
      var token := ReadToken(rest, cursor);
      var s := token.0;
      cursor := token.1;
      assert FaceTokens(rest)[i..][0] == s && FaceTokens(rest)[i..][1..] == FaceTokens(rest)[i + 1..];
      var added := ReadFaceVertex(positions, texCoords, normals, fp, ft, fn, s);
      if added.Fatal? {
        return Fatal(added.reason);
      }
      fp, ft, fn := added.value.0, added.value.1, added.value.2;
      i := i + 1;
    }
    assert FaceTokens(rest)[i..] == [];
    return Ok((fp, ft, fn));
  }

  /** One face vertex of LoadMesh: parse `v/vt/vn`, then copy the three
      attributes it names into the final arrays. */
  method ReadFaceVertex(positions: seq<Vec3>, texCoords: seq<Vec2>, normals: seq<Vec3>,
                        fp: seq<Vec3>, ft: seq<Vec2>, fn: seq<Vec3>, s: string)
    returns (r: Result<(seq<Vec3>, seq<Vec2>, seq<Vec3>)>)
    ensures var spec := AddFaceToken(ObjData(positions, texCoords, normals, fp, ft, fn), s);
      (r.Ok? <==> spec.Ok?) && (r.Fatal? ==> r.reason == spec.reason) &&
      (r.Ok? ==> spec.value == ObjData(positions, texCoords, normals, r.value.0, r.value.1, r.value.2))
  {
    var vertexAttribs := ParseFaceVertex(s);
    if vertexAttribs.Fatal? {
      return Fatal(vertexAttribs.reason);
    }
    var attribs := vertexAttribs.value;
    if |attribs| < 3 {
      return Fatal("vertexAttribs index out of range");
    } else if !(0 <= attribs[0] < |positions|) {
      return Fatal("position index out of range");
    } else if !(0 <= attribs[1] < |texCoords|) {
      return Fatal("texture coordinate index out of range");
    } else if !(0 <= attribs[2] < |normals|) {
      return Fatal("normal index out of range");
    }
    return Ok((fp + [positions[attribs[0]]], ft + [texCoords[attribs[1]]], fn + [normals[attribs[2]]]));
  }

  /** LoadMesh(filepath), with the file given as its lines (None if it cannot be
      opened). A Fatal result is an exception or an out-of-bounds read. */
  method LoadMesh(file: Option<seq<string>>) returns (r: Result<Option<Mesh>>)
    ensures r == LoadedMesh(file)
  {
    if file.None? {
      return Ok(None);
    }
    var lines := file.value;
    var unorderedPositions: seq<Vec3> := [];
    var unorderedTextureCoords: seq<Vec2> := [];
    var unorderedNormals: seq<Vec3> := [];
    var finalPositions: seq<Vec3> := [];
    var finalTextureCoords: seq<Vec2> := [];
    var finalNormals: seq<Vec3> := [];
    var l := 0;
    while l < |lines|
      invariant 0 <= l <= |lines|
      invariant ParseLines(EMPTY, lines) == ParseLines(ObjData(unorderedPositions, unorderedTextureCoords, unorderedNormals,
        finalPositions, finalTextureCoords, finalNormals), lines[l..])
    {
      var line := lines[l];
      ghost var st := ObjData(unorderedPositions, unorderedTextureCoords, unorderedNormals,
        finalPositions, finalTextureCoords, finalNormals);
      assert ParseLines(st, lines[l..]) ==
        match ParseLine(st, line) case Fatal(e) => Fatal(e) case Ok(st') => ParseLines(st', lines[l + 1..]) by {
        assert lines[l..][0] == line && lines[l..][1..] == lines[l + 1..];
      }
      if StartsWith(line, "v ") {
        unorderedPositions := unorderedPositions + [ParseVec3(line[2..])];
      } else if StartsWith(line, "vt") {
        unorderedTextureCoords := unorderedTextureCoords + [ParseVec2(line[2..])];
      } else if StartsWith(line, "vn") {
        unorderedNormals := unorderedNormals + [ParseVec3(line[2..])];
      } else if StartsWith(line, "f ") {
        var face := ReadFace(unorderedPositions, unorderedTextureCoords, unorderedNormals,
          finalPositions, finalTextureCoords, finalNormals, line[2..]);
        if face.Fatal? {
          return Fatal(face.reason);
        }
        finalPositions, finalTextureCoords, finalNormals := face.value.0, face.value.1, face.value.2;
      }
      l := l + 1;
    }
    assert lines[l..] == [];
    var indices: seq<int> := [];
    var i := 0;
    while i < |finalPositions|
      invariant 0 <= i <= |finalPositions| && indices == Iota(i)
    {
      indices := indices + [i];
      i := i + 1;
    }
    if |indices| == 0 {
      return Fatal(NO_INDICES);
    }
    return Ok(Some(Mesh(finalPositions, finalTextureCoords, finalNormals, indices)));
  }

  // ------------------------------------------------------------ properties

  /** Number of lines with the given prefix. */
  function CountPrefixed(lines: seq<string>, prefix: string): nat
    decreases |lines|
  {
    if |lines| == 0 then 0
    else (if StartsWith(lines[0], prefix) then 1 else 0) + CountPrefixed(lines[1..], prefix)
  }

  predicate Balanced(st: ObjData) {
    |st.finalPositions| == |st.finalTexCoords| == |st.finalNormals|
  }

  lemma {:induction false} FaceVerticesBalanced(st: ObjData, tokens: seq<string>)
    requires Balanced(st) && AddFaceVertices(st, tokens).Ok?
    ensures var r := AddFaceVertices(st, tokens).value;
      Balanced(r) && |r.finalPositions| == |st.finalPositions| + |tokens| &&
      r.positions == st.positions && r.texCoords == st.texCoords && r.normals == st.normals
    decreases |tokens|
  {
    if |tokens| > 0 {
      var attribs := FieldValues(SplitFrom(tokens[0], DELIM, 0)).value;
      FaceVerticesBalanced(AddFaceVertex(st, attribs).value, tokens[1..]);
    }
  }

  /** Every face line adds exactly three vertices, each with one position, one
      texture coordinate and one normal, so the three final arrays stay equal
      in length: three times the number of face lines read. */
  lemma {:induction false} ParsedArraysBalanced(st: ObjData, lines: seq<string>)
    requires Balanced(st) && ParseLines(st, lines).Ok?
    ensures var r := ParseLines(st, lines).value;
      Balanced(r) && |r.finalPositions| == |st.finalPositions| + NUM_VERTICES_PER_FACE * CountPrefixed(lines, "f ")
    decreases |lines|
  {
    if |lines| > 0 {
      var line := lines[0];
      var st' := ParseLine(st, line).value;
      assert StartsWith(line, "f ") ==> !StartsWith(line, "v ") && !StartsWith(line, "vt") && !StartsWith(line, "vn");
      if StartsWith(line, "f ") && !StartsWith(line, "v ") && !StartsWith(line, "vt") && !StartsWith(line, "vn") {
        FaceVerticesBalanced(st, FaceTokens(line[2..]));
      }
      ParsedArraysBalanced(st', lines[1..]);
    }
  }

  /** A loaded mesh has equally many positions, texture coordinates and
      normals, three per face line and at least one face line, and the index
      buffer 0, 1, ..., n - 1. */
  lemma LoadedMeshShape(lines: seq<string>)
    requires LoadedMesh(Some(lines)).Ok?
    ensures var m := LoadedMesh(Some(lines)).value;
      m.Some? && CountPrefixed(lines, "f ") > 0 &&
      |m.value.positions| == |m.value.texCoords| == |m.value.normals| == NUM_VERTICES_PER_FACE * CountPrefixed(lines, "f ") &&
      m.value.indices == Iota(|m.value.positions|)
  {
    ParsedArraysBalanced(EMPTY, lines);
  }

  /** A file whose lines all parse but that has no face line fails the Mesh
      constructor's assertion that there is an index. */
  lemma FacelessFileFails(lines: seq<string>)
    requires ParseLines(EMPTY, lines).Ok? && CountPrefixed(lines, "f ") == 0
    ensures LoadedMesh(Some(lines)) == Fatal(NO_INDICES)
  {
    ParsedArraysBalanced(EMPTY, lines);
  }

  /** A file that cannot be opened gives no mesh and no failure. */
  lemma UnopenableFileGivesNull()
    ensures LoadedMesh(None) == Ok(None)
  {
  }

  /** A face line made of tokens `p+1/t+1/n+1` that name existing entries adds
      exactly those entries, converted to 0-based indices. */
  lemma FaceLineAddsNamedVertices(st: ObjData, p: nat, t: nat, n: nat)
    requires p < |st.positions| && t < |st.texCoords| && n < |st.normals|
    requires p < INT_MAX && t < INT_MAX && n < INT_MAX
    ensures AddFaceVertices(st, [FaceToken(p, t, n)]) == Ok(st.(
      finalPositions := st.finalPositions + [st.positions[p]],
      finalTexCoords := st.finalTexCoords + [st.texCoords[t]],
      finalNormals := st.finalNormals + [st.normals[n]]))
  {
    FaceTokenRoundTrip(p, t, n);
    assert [FaceToken(p, t, n)][1..] == [];
  }

  /** Lines with none of the four prefixes (comments, "o", "s", "usemtl", ...) change nothing. */
  lemma OtherLinesIgnored(st: ObjData, line: string)
    requires !StartsWith(line, "v ") && !StartsWith(line, "vt") && !StartsWith(line, "vn") && !StartsWith(line, "f ")
    ensures ParseLine(st, line) == Ok(st)
  {
  }
}
