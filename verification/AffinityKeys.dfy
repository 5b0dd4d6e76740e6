/** Extraction of affinity keys from a message by a dotted path of field names, gcp_picker.go:219-263. */
module AffinityKeys {
  import opened Options

  /** What reflection shows of a Go value. Invalid is the zero reflect.Value, Other any further kind. */
  datatype Value =
    | Str(text: string)
    | Struct(fields: map<string, Value>)
    | Slice(elems: seq<Value>)
    | Pointer(elem: Option<Value>)
    | Interface(elem: Option<Value>)
    | Other
    | Invalid

  datatype Error = NotAString | NotAStruct(index: nat)

  datatype Keys = Keys(keys: seq<string>) | Failed(error: Error)

  /** strings.Title, a library call, is the parameter `title` throughout. */
  type Title = string -> string

  /** One pointer or interface is followed, not a chain of them. */
  function Elem(v: Value): Value {
    match v
    case Pointer(None) => Invalid
    case Pointer(Some(e)) => e
    case Interface(None) => Invalid
    case Interface(Some(e)) => e
    case _ => v
  }

  function FieldByName(v: Value, name: string): Value
    requires v.Struct?
  {
    if name in v.fields then v.fields[name] else Invalid
  }

  /** The depth-first walk of the source. */
  function KeysFrom(v: Value, path: seq<string>, start: nat, title: Title): Keys
    requires start <= |path|
    decreases |path| - start, 0
  {
    var val := Elem(v);
    if start == |path| then
      if val.Str? then Keys([val.text]) else Failed(NotAString)
    else if !val.Struct? then Failed(NotAStruct(start))
    else
      var field := FieldByName(val, title(path[start]));
      if field.Slice? then KeysFromAll(field.elems, path, start + 1, title)
      else KeysFrom(field, path, start + 1, title)
  }

  function KeysFromAll(vs: seq<Value>, path: seq<string>, start: nat, title: Title): Keys
    requires start <= |path|
    decreases |path| - start, |vs|
  {
    if |vs| == 0 then Keys([])
    else
      var n := |vs| - 1;
      Append(KeysFromAll(vs[..n], path, start, title), KeysFrom(vs[n], path, start, title))
  }

  function Append(a: Keys, b: Keys): Keys {
    if a.Failed? then a else if b.Failed? then b else Keys(a.keys + b.keys)
  }

  lemma {:induction false} FailureStays(vs: seq<Value>, i: nat, path: seq<string>, start: nat, title: Title)
    requires start <= |path| && i <= |vs| && KeysFromAll(vs[..i], path, start, title).Failed?
    ensures KeysFromAll(vs, path, start, title) == KeysFromAll(vs[..i], path, start, title)
    decreases |vs| - i
  {
    if i < |vs| {
      assert vs[..i + 1][..i] == vs[..i];
      FailureStays(vs, i + 1, path, start, title);
    } else {
      assert vs[..i] == vs;
    }
  }

  method KeysFromMessage(v: Value, path: seq<string>, start: nat, title: Title) returns (r: Keys)
    requires start <= |path|
    ensures r == KeysFrom(v, path, start, title)
    decreases |path| - start
  {
    var val := v;
    if val.Pointer? || val.Interface? {
      val := if val.elem.Some? then val.elem.value else Invalid;
    }
    if |path| == start {
      if !val.Str? {
        return Failed(NotAString);
      }
      return Keys([val.text]);
    }
    if !val.Struct? {
      return Failed(NotAStruct(start));
    }
    var valField := FieldByName(val, title(path[start]));
    if !valField.Slice? {
      r := KeysFromMessage(valField, path, start + 1, title);
      return;
    }
    var keys := [];
    var i := 0;
    while i < |valField.elems|
      invariant i <= |valField.elems|
      invariant KeysFromAll(valField.elems[..i], path, start + 1, title) == Keys(keys)
    {
      var kk := KeysFromMessage(valField.elems[i], path, start + 1, title);
      assert valField.elems[..i + 1][..i] == valField.elems[..i];
      if kk.Failed? {
        FailureStays(valField.elems, i + 1, path, start + 1, title);
        return kk;
      }
      keys := keys + kk.keys;
      i := i + 1;
    }
    assert valField.elems[..i] == valField.elems;
    return Keys(keys);
  }

  // ----- an independent definition: the values reached, level by level

  /** What v contributes to the next level. */
  function Children(v: Value, name: string): seq<Value> {
    if !Elem(v).Struct? then []
    else
      var field := FieldByName(Elem(v), name);
      if field.Slice? then field.elems else [field]
  }

  function NextLevel(vs: seq<Value>, name: string): seq<Value> {
    if |vs| == 0 then [] else NextLevel(vs[..|vs| - 1], name) + Children(vs[|vs| - 1], name)
  }

  /** The values at the end of the path, from left to right. */
  function Reached(vs: seq<Value>, path: seq<string>, title: Title): seq<Value>
    decreases |path|
  {
    if |path| == 0 then vs else Reached(NextLevel(vs, title(path[0])), path[1..], title)
  }

  predicate AllStructs(vs: seq<Value>) {
    forall i | 0 <= i < |vs| :: Elem(vs[i]).Struct?
  }

  /** No value but a struct stands before the end of the path. */
  predicate Passable(vs: seq<Value>, path: seq<string>, title: Title)
    decreases |path|
  {
    |path| == 0 || (AllStructs(vs) && Passable(NextLevel(vs, title(path[0])), path[1..], title))
  }

  predicate AllStrings(vs: seq<Value>) {
    forall i | 0 <= i < |vs| :: Elem(vs[i]).Str?
  }

  function Texts(vs: seq<Value>): seq<string>
    requires AllStrings(vs)
  {
    seq(|vs|, i requires 0 <= i < |vs| => Elem(vs[i]).text)
  }

  // ----- the walk equals it

  lemma Snoc(vs: seq<Value>, v: Value, path: seq<string>, start: nat, title: Title)
    requires start <= |path|
    ensures KeysFromAll(vs + [v], path, start, title) ==
            Append(KeysFromAll(vs, path, start, title), KeysFrom(v, path, start, title))
  {
    hide KeysFrom, Append;
    assert (vs + [v])[..|vs|] == vs;
  }

  lemma AppendAssociates(a: Keys, b: Keys, c: Keys)
    ensures Append(Append(a, b), c) == Append(a, Append(b, c))
  {
  }

  lemma NothingAppended(a: Keys)
    ensures Append(a, Keys([])) == a
  {
  }

  lemma {:induction false} Splits(a: seq<Value>, b: seq<Value>, path: seq<string>, start: nat, title: Title)
    requires start <= |path|
    ensures KeysFromAll(a + b, path, start, title) ==
            Append(KeysFromAll(a, path, start, title), KeysFromAll(b, path, start, title))
    decreases |b|
  {
    if |b| == 0 {
      assert a + b == a;
      NothingAppended(KeysFromAll(a, path, start, title));
    } else {
      var front, v := b[..|b| - 1], b[|b| - 1];
      assert b == front + [v] && a + b == (a + front) + [v];
      hide KeysFrom, KeysFromAll, Append;
      Splits(a, front, path, start, title);
      Snoc(front, v, path, start, title);
      Snoc(a + front, v, path, start, title);
      AppendAssociates(KeysFromAll(a, path, start, title), KeysFromAll(front, path, start, title),
                       KeysFrom(v, path, start, title));
    }
  }

  lemma One(v: Value, path: seq<string>, start: nat, title: Title)
    requires start <= |path|
    ensures KeysFromAll([v], path, start, title) == KeysFrom(v, path, start, title)
  {
    assert [v][..0] == [];
    assert KeysFromAll([v][..0], path, start, title) == Keys([]);
  }

  /** As long as there are only structs, the walk can proceed level by level. */
  lemma {:induction false} Descends(vs: seq<Value>, path: seq<string>, start: nat, title: Title)
    requires start < |path| && AllStructs(vs)
    ensures KeysFromAll(vs, path, start, title) ==
            KeysFromAll(NextLevel(vs, title(path[start])), path, start + 1, title)
    decreases |vs|
  {
    if |vs| > 0 {
      var n := |vs| - 1;
      var name := title(path[start]);
      Descends(vs[..n], path, start, title);
      Splits(NextLevel(vs[..n], name), Children(vs[n], name), path, start + 1, title);
      var field := FieldByName(Elem(vs[n]), name);
      if !field.Slice? {
        One(field, path, start + 1, title);
      }
    }
  }

  lemma {:induction false} BlockedFails(vs: seq<Value>, i: nat, path: seq<string>, start: nat, title: Title)
    requires start <= |path| && i < |vs| && KeysFrom(vs[i], path, start, title).Failed?
    ensures KeysFromAll(vs, path, start, title).Failed?
    decreases |vs|
  {
    if i < |vs| - 1 {
      BlockedFails(vs[..|vs| - 1], i, path, start, title);
    }
  }

  lemma {:induction false} StringsGiveTexts(vs: seq<Value>, path: seq<string>, title: Title)
    requires AllStrings(vs)
    ensures KeysFromAll(vs, path, |path|, title) == Keys(Texts(vs))
    decreases |vs|
  {
    if |vs| > 0 {
      var n := |vs| - 1;
      StringsGiveTexts(vs[..n], path, title);
      assert Texts(vs) == Texts(vs[..n]) + [Elem(vs[n]).text];
    }
  }

  lemma {:induction false} WalkIsFlattening(vs: seq<Value>, path: seq<string>, start: nat, title: Title)
    requires start <= |path|
    ensures KeysFromAll(vs, path, start, title).Keys? <==>
            Passable(vs, path[start..], title) && AllStrings(Reached(vs, path[start..], title))
    ensures KeysFromAll(vs, path, start, title).Keys? ==>
            KeysFromAll(vs, path, start, title).keys == Texts(Reached(vs, path[start..], title))
    decreases |path| - start
  {
    if start == |path| {
      if AllStrings(vs) {
        StringsGiveTexts(vs, path, title);
      } else {
        var i :| 0 <= i < |vs| && !Elem(vs[i]).Str?;
        BlockedFails(vs, i, path, start, title);
      }
    } else if AllStructs(vs) {
      Descends(vs, path, start, title);
      assert path[start..][1..] == path[start + 1..];
      WalkIsFlattening(NextLevel(vs, title(path[start])), path, start + 1, title);
    } else {
      var i :| 0 <= i < |vs| && !Elem(vs[i]).Struct?;
      BlockedFails(vs, i, path, start, title);
    }
  }

  /**
   The keys of a message are the values its path reaches, flattened from left to right; extraction fails exactly
   when a value on the way is not a struct or a value at the end is not a string.
   */
  lemma KeysAreReachedValues(v: Value, path: seq<string>, title: Title)
    ensures var r := KeysFrom(v, path, 0, title);
      && (r.Keys? <==> Passable([v], path, title) && AllStrings(Reached([v], path, title)))
      && (r.Keys? ==> r.keys == Texts(Reached([v], path, title)))
  {
    WalkIsFlattening([v], path, 0, title);
    One(v, path, 0, title);
    assert path[0..] == path;
  }

  /** No field on the path is repeated. */
  predicate Singular(v: Value, path: seq<string>, start: nat, title: Title)
    requires start <= |path|
    decreases |path| - start
  {
    start == |path| || !Elem(v).Struct? ||
    var field := FieldByName(Elem(v), title(path[start]));
    !field.Slice? && Singular(field, path, start + 1, title)
  }

  lemma {:induction false} SingularGivesOneKey(v: Value, path: seq<string>, start: nat, title: Title)
    requires start <= |path| && Singular(v, path, start, title) && KeysFrom(v, path, start, title).Keys?
    ensures |KeysFrom(v, path, start, title).keys| == 1
    decreases |path| - start
  {
    if start < |path| {
      SingularGivesOneKey(FieldByName(Elem(v), title(path[start])), path, start + 1, title);
    }
  }

  /** One pointer or interface is followed before each name and before the key, a chain of them or nil is not. */
  lemma PointersAreFollowed(v: Value, path: seq<string>, start: nat, title: Title)
    requires start <= |path|
    ensures KeysFrom(Pointer(None), path, start, title).Failed? && KeysFrom(Interface(None), path, start, title).Failed?
    ensures !v.Pointer? && !v.Interface? ==>
      && KeysFrom(Pointer(Some(v)), path, start, title) == KeysFrom(v, path, start, title)
      && KeysFrom(Interface(Some(v)), path, start, title) == KeysFrom(v, path, start, title)
    ensures v.Pointer? || v.Interface? ==>
      KeysFrom(Pointer(Some(v)), path, start, title).Failed? && KeysFrom(Interface(Some(v)), path, start, title).Failed?
  {
  }

  /** A name leads to the field of that title; a struct without that field has no keys there. */
  lemma FieldsAreNamed(fields: map<string, Value>, path: seq<string>, start: nat, title: Title)
    requires start < |path|
    ensures title(path[start]) !in fields ==> KeysFrom(Struct(fields), path, start, title).Failed?
    ensures title(path[start]) in fields && !fields[title(path[start])].Slice? ==>
      KeysFrom(Struct(fields), path, start, title) == KeysFrom(fields[title(path[start])], path, start + 1, title)
    ensures title(path[start]) in fields && fields[title(path[start])] == Slice([]) ==>
      KeysFrom(Struct(fields), path, start, title) == Keys([])
  {
  }

  // ----- getAffinityKeysFromMessage

  /** strings.Split(s, ".") */
  function Split(s: string): (names: seq<string>)
    ensures |names| > 0
    ensures Joined(names) == s && forall n | n in names :: '.' !in n
  {
    if |s| == 0 then [""]
    else
      var c := s[|s| - 1];
      var front := Split(s[..|s| - 1]);
      if c == '.' then front + [""]
      else front[|front| - 1 := front[|front| - 1] + [c]]
  }

  function Joined(names: seq<string>): string {
    if |names| == 0 then ""
    else if |names| == 1 then names[0]
    else Joined(names[..|names| - 1]) + "." + names[|names| - 1]
  }

  /** The error for an empty path is never returned: a split has at least one name. */
  method GetAffinityKeysFromMessage(locator: string, msg: Value, title: Title) returns (r: Keys)
    ensures r == KeysFrom(msg, Split(locator), 0, title)
    ensures r.Keys? <==>
            Passable([msg], Split(locator), title) && AllStrings(Reached([msg], Split(locator), title))
    ensures r.Keys? ==> r.keys == Texts(Reached([msg], Split(locator), title))
  {
    r := KeysFromMessage(msg, Split(locator), 0, title);
    KeysAreReachedValues(msg, Split(locator), title);
  }
}
