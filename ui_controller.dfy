/** The scene-object lists of the user interface (UIController.h,
    UIController.cpp): names of entities and lights are collected as they are
    created, repeated names are told apart by a "(k)" suffix, and the labels
    are copied into NUL-terminated buffers once before the first frame.
    Drawing the ImGui window is not part of this model. */
module UI {
  import opened Glm
  import opened Text
  import Lights

  /** The names GraphicsEngine gives the lights it creates. */
  const POINT_LIGHT_NAME: string := "PointLight"
  const DIRECTIONAL_LIGHT_NAME: string := "DirectionalLight"

  /** How often `name` occurs in `names`. */
  function Count(names: seq<string>, name: string): nat
    decreases |names|
  {
    if |names| == 0 then 0
    else Count(names[..|names| - 1], name) + (if names[|names| - 1] == name then 1 else 0)
  }

  /** The label of a name already seen `seen` times: the first occurrence is
      the name itself, the k-th repeat is name + "(k)". */
  function Label(name: string, seen: nat): string {
    if seen == 0 then name else name + "(" + IntToString(seen) + ")"
  }

  /** The labels of StringCounter::GetStrings: one per added name, in order. */
  function Labels(names: seq<string>): (r: seq<string>)
    ensures |r| == |names|
    decreases |names|
  {
    if |names| == 0 then []
    else
      var init := names[..|names| - 1];
      Labels(init) + [Label(names[|names| - 1], Count(init, names[|names| - 1]))]
  }

  lemma {:induction false} LabelsAt(names: seq<string>, i: nat)
    requires i < |names|
    ensures Labels(names)[i] == Label(names[i], Count(names[..i], names[i]))
    decreases |names|
  {
    var n := |names|;
    if i < n - 1 {
      var init := names[..n - 1];
      LabelsAt(init, i);
      assert init[..i] == names[..i];
    } else {
      assert names[..n - 1] == names[..i];
    }
  }

  predicate NoRepeats(names: seq<string>) {
    forall i, j :: 0 <= i < j < |names| ==> names[i] != names[j]
  }

  lemma {:induction false} CountAbsent(names: seq<string>, name: string)
    requires forall k :: 0 <= k < |names| ==> names[k] != name
    ensures Count(names, name) == 0
    decreases |names|
  {
    if |names| > 0 {
      CountAbsent(names[..|names| - 1], name);
    }
  }

  /** Without repeated names the labels are the names themselves. */
  lemma NoRepeatsKeepNames(names: seq<string>)
    requires NoRepeats(names)
    ensures Labels(names) == names
  {
    forall i | 0 <= i < |names|
      ensures Labels(names)[i] == names[i]
    {
      LabelsAt(names, i);
      CountAbsent(names[..i], names[i]);
    }
  }

  lemma {:induction false} CountGrows(names: seq<string>, i: nat, j: nat)
    requires i < j <= |names|
    ensures Count(names[..i], names[i]) < Count(names[..j], names[i])
    decreases j - i
  {
    if j == i + 1 {
      assert names[..j][..i] == names[..i];
    } else {
      CountGrows(names, i, j - 1);
      assert names[..j][..j - 1] == names[..j - 1];
    }
  }

  /** For one name, different repeat counts give different labels. */
  lemma LabelInjective(name: string, a: nat, b: nat)
    requires a != b
    ensures Label(name, a) != Label(name, b)
  {
    if a > 0 && b > 0 && Label(name, a) == Label(name, b) {
      var sa, sb := IntToString(a), IntToString(b);
      var la, lb := Label(name, a), Label(name, b);
      assert la[|name| + 1..|la| - 1] == sa;
      assert lb[|name| + 1..|lb| - 1] == sb;
      IntToStringInjective(a, b);
    }
  }

  /** Two occurrences of the same name always get different labels. */
  lemma RepeatsAreToldApart(names: seq<string>, i: nat, j: nat)
    requires i < j < |names| && names[i] == names[j]
    ensures Labels(names)[i] != Labels(names)[j]
  {
    LabelsAt(names, i);
    LabelsAt(names, j);
    CountGrows(names, i, j);
    LabelInjective(names[i], Count(names[..i], names[i]), Count(names[..j], names[i]));
  }

  /** Labels are not unique across names: a name that already ends in "(1)"
      meets the label generated for the first repeat of its stem. */
  lemma LabelsCanCollide()
    ensures Labels(["a(1)", "a", "a"]) == ["a(1)", "a", "a(1)"]
  {
    var one, two, three := ["a(1)"], ["a(1)", "a"], ["a(1)", "a", "a"];
    assert Labels(one) == ["a(1)"] && Count(one, "a") == 0 by {
      assert one[..0] == [];
    }
    assert Labels(two) == ["a(1)", "a"] && Count(two, "a") == 1 by {
      assert two[..1] == one;
    }
    assert Labels(three) == Labels(two) + [Label("a", 1)] by {
      assert three[..2] == two;
    }
    assert Label("a", 1) == "a(1)" by {
      assert IntToString(1) == "1";
    }
  }

  class StringCounter {
    var strings: seq<string>

    constructor ()
      ensures strings == []
    {
      strings := [];
    }

    /** StringCounter::Add. */
    method Add(name: string)
      modifies this
      ensures strings == old(strings) + [name]
    {
      strings := strings + [name];
    }

    /** StringCounter::GetSize. */
    function GetSize(): int
      reads this
    {
      |strings|
    }

    /** StringCounter::GetStrings: the frequency map holds, for every name met
        so far, how often it was met. */
    method GetStrings() returns (r: seq<string>)
      ensures r == Labels(strings) && |r| == GetSize()
    {
      r := [];
      var freqMap: map<string, int> := map[];
      var i := 0;
      while i < |strings|
        invariant 0 <= i <= |strings| && r == Labels(strings[..i])
        invariant forall name :: name in freqMap <==> Count(strings[..i], name) > 0
        invariant forall name :: name in freqMap ==> freqMap[name] == Count(strings[..i], name)
      {
        var str := strings[i];
        assert strings[..i + 1][..i] == strings[..i];
        var name := str;
        if str in freqMap {
          var count := freqMap[str];
          if count > 0 {
            name := name + "(" + IntToString(count) + ")";
          }
          freqMap := freqMap[str := count + 1];
        } else {
          freqMap := freqMap[str := 1];
        }
        r := r + [name];
        i := i + 1;
      }
      assert strings[..i] == strings;
    }
  }

  /** The colour after clamping each channel to [0, 1]. */
  function ClampedColour(c: Vec3): (r: Vec3)
    ensures Lights.IsValidColour(r)
  {
    Vec3(Clamp(c.x, 0.0, 1.0), Clamp(c.y, 0.0, 1.0), Clamp(c.z, 0.0, 1.0))
  }

  /** Clamping a valid colour changes nothing, so clamping twice is clamping once. */
  lemma ClampedColourIdempotent(c: Vec3)
    ensures Lights.IsValidColour(c) ==> ClampedColour(c) == c
    ensures ClampedColour(ClampedColour(c)) == ClampedColour(c)
  {
  }

  /** ClampColour: the three channels of an ImGui colour, clamped in place. */
  method ClampColour(col: array<real>)
    requires col.Length >= 3
    modifies col
    ensures Vec3(col[0], col[1], col[2]) == ClampedColour(Vec3(old(col[0]), old(col[1]), old(col[2])))
    ensures col[3..] == old(col[3..])
  {
    col[0] := Clamp(col[0], 0.0, 1.0);
    col[1] := Clamp(col[1], 0.0, 1.0);
    col[2] := Clamp(col[2], 0.0, 1.0);
  }

  /** GetCString: a new buffer of size + 1 characters, the string followed by
      the terminator. */
  method GetCString(str: string) returns (buff: array<char>)
    ensures fresh(buff) && buff.Length == |str| + 1
    ensures buff[..] == str + ['\0']
  {
    var size := |str| + 1;
    var source := str + ['\0'];
    buff := new char[size];
    var i := 0;
    while i < size
      invariant 0 <= i <= size
      invariant buff[..i] == source[..i]
    {
      buff[i] := source[i];
      i := i + 1;
    }
  }

  /** Does `names[k]` hold labels[k] + NUL for every k? */
  predicate HoldsCStrings(names: seq<array<char>>, labels: seq<string>)
    reads set k | 0 <= k < |names| :: names[k]
  {
    |names| == |labels| && forall k :: 0 <= k < |names| ==> names[k][..] == labels[k] + ['\0']
  }

  class UIController {
    const entFreq: StringCounter
    const lightFreq: StringCounter
    var entNames: seq<array<char>>
    var lightNames: seq<array<char>>

    predicate Valid()
      reads this
    {
      entFreq != lightFreq
    }

    constructor ()
      ensures Valid() && fresh(entFreq) && fresh(lightFreq)
      ensures entFreq.strings == [] && lightFreq.strings == [] && entNames == [] && lightNames == []
    {
      entFreq := new StringCounter();
      lightFreq := new StringCounter();
      entNames, lightNames := [], [];
    }

    /** UIController::AddSceneObject: the two light names go to the light
        list, every other name to the entity list. */
    method AddSceneObject(name: string)
      requires Valid()
      modifies entFreq, lightFreq
      ensures name == POINT_LIGHT_NAME || name == DIRECTIONAL_LIGHT_NAME ==>
        lightFreq.strings == old(lightFreq.strings) + [name] && entFreq.strings == old(entFreq.strings)
      ensures !(name == POINT_LIGHT_NAME || name == DIRECTIONAL_LIGHT_NAME) ==>
        entFreq.strings == old(entFreq.strings) + [name] && lightFreq.strings == old(lightFreq.strings)
    {
      if name == POINT_LIGHT_NAME || name == DIRECTIONAL_LIGHT_NAME {
        lightFreq.Add(name);
      } else {
        entFreq.Add(name);
      }
    }

    /** UIController::BeforeFirstRender: `ok` is false (an assertion fails)
        unless the scene's counts match the number of names of each kind;
        then the labels are appended as C strings. */
    method BeforeFirstRender(numEntities: int, numLights: int) returns (ok: bool)
      requires Valid()
      modifies this
      ensures ok <==> numEntities == entFreq.GetSize() && numLights == lightFreq.GetSize()
      ensures !ok ==> entNames == old(entNames) && lightNames == old(lightNames)
      ensures ok ==> |entNames| == |old(entNames)| + numEntities && entNames[..|old(entNames)|] == old(entNames)
      ensures ok ==> HoldsCStrings(entNames[|old(entNames)|..], Labels(entFreq.strings))
      ensures ok ==> |lightNames| == |old(lightNames)| + numLights && lightNames[..|old(lightNames)|] == old(lightNames)
      ensures ok ==> HoldsCStrings(lightNames[|old(lightNames)|..], Labels(lightFreq.strings))
    {
      var entNamesStr := entFreq.GetStrings();
      var lightNamesStr := lightFreq.GetStrings();
      if numEntities != |entNamesStr| || numLights != |lightNamesStr| {
        return false;
      }
      entNames := AppendCStrings(entNames, entNamesStr);
      lightNames := AppendCStrings(lightNames, lightNamesStr);
      return true;
    }
  }

  /** One loop of BeforeFirstRender: a new C string per label, pushed in order. */
  method AppendCStrings(names: seq<array<char>>, labels: seq<string>) returns (r: seq<array<char>>)
    ensures |r| == |names| + |labels| && r[..|names|] == names
    ensures HoldsCStrings(r[|names|..], labels)
    ensures forall k :: |names| <= k < |r| ==> fresh(r[k])
  {
    r := names;
    var i := 0;
    while i < |labels|
      invariant 0 <= i <= |labels| && |r| == |names| + i && r[..|names|] == names
      invariant forall k :: |names| <= k < |r| ==> fresh(r[k])
      invariant forall k :: 0 <= k < i ==> r[|names| + k][..] == labels[k] + ['\0']
    {
      var buff := GetCString(labels[i]);
      r := r + [buff];
      i := i + 1;
    }
  }
}
