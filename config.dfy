/**
 * The lenient accessors of `omarchy_pop/config.py`: dotted-path lookup and
 * the "enabled item" filters over an already parsed configuration mapping.
 */
module Config {
  import opened Wrappers
  import opened Yaml
  import opened Lists

  // ---------------------------------------------------------------------------
  // Dotted paths

  /** `s.split(".")`: the pieces between dots; never empty, `""` gives `[""]`. */
  function Split(s: string): (parts: seq<string>)
    ensures |parts| >= 1
    ensures forall i :: 0 <= i < |parts| ==> '.' !in parts[i]
    ensures Join(parts) == s
    decreases |s|
  {
    if s == [] then [[]]
    else
      var tail := Split(s[1..]);
      if s[0] == '.' then [[]] + tail
      else [[s[0]] + tail[0]] + tail[1..]
  }

  /** `".".join(parts)`. */
  function Join(parts: seq<string>): string
    requires |parts| >= 1
  {
    if |parts| == 1 then parts[0] else parts[0] + "." + Join(parts[1..])
  }

  /** A piece without dots splits into itself. */
  lemma {:induction false} SplitWord(w: string)
    requires '.' !in w
    ensures Split(w) == [w]
    decreases |w|
  {
    if w != [] {
      SplitWord(w[1..]);
      assert [w[0]] + w[1..] == w;
    }
  }

  /** Splitting a piece without dots followed by a dot peels that piece off. */
  lemma {:induction false} SplitPeel(w: string, rest: string)
    requires '.' !in w
    ensures Split(w + "." + rest) == [w] + Split(rest)
    decreases |w|
  {
    var s := w + "." + rest;
    if w == [] {
      assert s[0] == '.' && s[1..] == rest;
    } else {
      assert s[0] == w[0] && s[1..] == w[1..] + "." + rest;
      SplitPeel(w[1..], rest);
      var tail := Split(s[1..]);
      assert tail[0] == w[1..] && tail[1..] == Split(rest);
      assert [w[0]] + w[1..] == w;
    }
  }

  /** Joining dot-free pieces and splitting again gives the pieces back. */
  lemma {:induction false} SplitJoin(parts: seq<string>)
    requires |parts| >= 1
    requires forall i :: 0 <= i < |parts| ==> '.' !in parts[i]
    ensures Split(Join(parts)) == parts
    decreases |parts|
  {
    if |parts| == 1 {
      SplitWord(parts[0]);
    } else {
      SplitPeel(parts[0], Join(parts[1..]));
      SplitJoin(parts[1..]);
      assert parts == [parts[0]] + parts[1..];
    }
  }

  // ---------------------------------------------------------------------------
  // get_value

  /**
   * The walk of `get_value`: each segment looks its key up in the current
   * mapping (a missing key gives None); None as the result means the walk had
   * to descend through something that is not a mapping.
   */
  function Resolve(cur: Value, parts: seq<string>): Option<Value>
    decreases |parts|
  {
    if parts == [] then Some(cur)
    else if cur.Object? then Resolve(Get(cur.fields, parts[0]), parts[1..])
    else None
  }

  /** What `get_value(config, dotpath, default)` returns. */
  function Lookup(config: map<string, Value>, dotpath: string, default: Value): Value {
    match Resolve(Object(config), Split(dotpath))
    case None => default
    case Some(v) => if v.Null? then default else v
  }

  /** `get_value` as the source runs it: a loop that reassigns `cur`, with an early return. */
  method GetValue(config: map<string, Value>, dotpath: string, default: Value) returns (r: Value)
    ensures Resolve(Object(config), Split(dotpath)) == None ==> r == default
    ensures Resolve(Object(config), Split(dotpath)) == Some(Null) ==> r == default
    ensures forall v :: Resolve(Object(config), Split(dotpath)) == Some(v) && !v.Null? ==> r == v
    ensures r == Lookup(config, dotpath, default)
  {
    var parts := Split(dotpath);
    var cur := Object(config);
    for i := 0 to |parts|
      invariant Resolve(Object(config), parts) == Resolve(cur, parts[i..])
    {
      if cur.Object? {
        assert parts[i..][1..] == parts[i + 1..];
        cur := Get(cur.fields, parts[i]);
      } else {
        return default;
      }
    }
    r := if cur != Null then cur else default;
  }

  /** Walking `p + q` is walking `p`, then `q` from where `p` ended. */
  lemma {:induction false} ResolveAppend(v: Value, p: seq<string>, q: seq<string>)
    ensures Resolve(v, p + q) ==
      match Resolve(v, p)
      case None => None
      case Some(w) => Resolve(w, q)
    decreases |p|
  {
    if p == [] {
      assert p + q == q;
    } else if v.Object? {
      assert (p + q)[1..] == p[1..] + q;
      ResolveAppend(Get(v.fields, p[0]), p[1..], q);
    }
  }

  /** Once the walk reaches a value that is not a mapping, any further segment gives the default. */
  lemma ThroughScalarGivesDefault(config: map<string, Value>, p: seq<string>, q: seq<string>, default: Value)
    requires |p| >= 1 && |q| >= 1
    requires forall i :: 0 <= i < |p| + |q| ==> '.' !in (p + q)[i]
    requires Resolve(Object(config), p).Some? && !Resolve(Object(config), p).value.Object?
    ensures Lookup(config, Join(p + q), default) == default
  {
    SplitJoin(p + q);
    ResolveAppend(Object(config), p, q);
  }

  /** When every step lands on a mapping and the final value is not null, that value is returned. */
  lemma FoundValueReturned(config: map<string, Value>, parts: seq<string>, v: Value, default: Value)
    requires |parts| >= 1 && forall i :: 0 <= i < |parts| ==> '.' !in parts[i]
    requires Resolve(Object(config), parts) == Some(v) && !v.Null?
    ensures Lookup(config, Join(parts), default) == v
  {
    SplitJoin(parts);
  }

  /** An explicit null is indistinguishable from a missing key, whatever follows it on the path. */
  lemma {:induction false} NullIsMissing(m: map<string, Value>, k: string, rest: seq<string>, default: Value)
    ensures Resolve(Object(m[k := Null]), [k] + rest) == Resolve(Object(m - {k}), [k] + rest)
    ensures Resolve(Object(m[k := Null]), [k] + rest) == if rest == [] then Some(Null) else None
  {
    assert ([k] + rest)[1..] == rest;
    assert Get(m[k := Null], k) == Null && Get(m - {k}, k) == Null;
  }

  /** `get_value({}, "a.b.c", X)` is `X`. */
  lemma LookupInEmpty(default: Value)
    ensures Lookup(map[], "a.b.c", default) == default
  {
    DottedABC();
    assert ["a", "b", "c"][1..] == ["b", "c"];
    assert Resolve(Object(map[]), ["a", "b", "c"]) == Resolve(Null, ["b", "c"]) == None;
  }

  /** `get_value({"a": {"b": {"c": 5}}}, "a.b.c")` is `5`. */
  lemma LookupNested(default: Value)
    ensures Lookup(map["a" := Object(map["b" := Object(map["c" := Int(5)])])], "a.b.c", default) == Int(5)
  {
    DottedABC();
    var c := Object(map["c" := Int(5)]);
    var b := Object(map["b" := c]);
    assert ["a", "b", "c"][1..] == ["b", "c"] && ["b", "c"][1..] == ["c"] && ["c"][1..] == [];
    assert Resolve(Object(map["a" := b]), ["a", "b", "c"]) == Resolve(b, ["b", "c"]);
    assert Resolve(b, ["b", "c"]) == Resolve(c, ["c"]);
    assert Resolve(c, ["c"]) == Resolve(Int(5), []) == Some(Int(5));
  }

  /** `get_value({"a": 1}, "a.b", X)` is `X`: `1` is not a mapping. */
  lemma LookupThroughInt(default: Value)
    ensures Lookup(map["a" := Int(1)], "a.b", default) == default
  {
    assert Join(["a", "b"]) == "a.b";
    SplitJoin(["a", "b"]);
  }

  lemma DottedABC()
    ensures Split("a.b.c") == ["a", "b", "c"]
  {
    assert Join(["a", "b", "c"]) == "a.b.c";
    SplitJoin(["a", "b", "c"]);
  }

  // ---------------------------------------------------------------------------
  // enabled_items, enabled_top_level, package_names, to_json

  /** `item.get("install", True)` is truthy: absent, or any truthy value. */
  predicate Enabled(item: Value) {
    item.Object? && Truthy(GetOr(item.fields, "install", Bool(true)))
  }

  /**
   * The values `for item in v` walks without `item.get` raising: a list of
   * mappings, or an empty string or mapping (which iterate nothing).
   */
  predicate IterableOfMaps(v: Value) {
    match v
    case List(xs) => forall i :: 0 <= i < |xs| ==> xs[i].Object?
    case Str(s) => s == []
    case Object(m) => m == map[]
    case _ => false
  }

  /**
   * The inputs on which `config.get(section, {}).get(group, [])` and the loop
   * over it do not raise: the section is absent or a mapping, and the group
   * is absent or iterable as mappings.
   */
  predicate GroupShaped(config: map<string, Value>, section: string, group: string) {
    section !in config ||
    (config[section].Object? &&
     (group !in config[section].fields || IterableOfMaps(config[section].fields[group])))
  }

  /** The items `enabled_items` iterates: those of `config[section][group]`, if any. */
  function GroupItems(config: map<string, Value>, section: string, group: string): (r: seq<Value>)
    requires GroupShaped(config, section, group)
    ensures forall i :: 0 <= i < |r| ==> r[i].Object?
  {
    if section !in config || group !in config[section].fields then []
    else
      match config[section].fields[group]
      case List(xs) => xs
      case _ => []
  }

  /**
   * `enabled_items`: in their original order, exactly the items of
   * `config[section][group]` whose `install` is absent or truthy.
   */
  function EnabledItems(config: map<string, Value>, section: string, group: string): (r: seq<Value>)
    requires GroupShaped(config, section, group)
    ensures section !in config ==> r == []
    ensures section in config && group !in config[section].fields ==> r == []
    ensures IsSubsequence(r, GroupItems(config, section, group))
    ensures forall i :: 0 <= i < |r| ==> Enabled(r[i])
    ensures forall x {:trigger multiset(r)[x]} ::
      multiset(r)[x] == if Enabled(x) then multiset(GroupItems(config, section, group))[x] else 0
  {
    Filter(Enabled, GroupItems(config, section, group))
  }

  /** An item whose `install` is explicitly null, false or 0 is never returned. */
  lemma FalsyInstallExcluded(config: map<string, Value>, section: string, group: string, item: Value)
    requires GroupShaped(config, section, group)
    requires item.Object? && "install" in item.fields
    requires item.fields["install"] in {Null, Bool(false), Int(0)}
    ensures item !in EnabledItems(config, section, group)
  {
    assert !Enabled(item);
    assert multiset(EnabledItems(config, section, group))[item] == 0;
  }

  /** An item without `install`, or with `install: true`, is returned. */
  lemma DefaultInstallIncluded(config: map<string, Value>, section: string, group: string, item: Value)
    requires GroupShaped(config, section, group)
    requires item in GroupItems(config, section, group)
    requires "install" !in item.fields || item.fields["install"] == Bool(true)
    ensures item in EnabledItems(config, section, group)
  {
    assert Enabled(item);
    assert multiset(GroupItems(config, section, group))[item] > 0;
    assert multiset(EnabledItems(config, section, group))[item] > 0;
  }

  /** The items of a top-level section, when it is a list. */
  function TopItems(config: map<string, Value>, section: string): seq<Value> {
    match GetOr(config, section, List([]))
    case List(xs) => xs
    case _ => []
  }

  /** Kept at top level: any non-mapping entry, and mappings that are enabled. */
  predicate KeptAtTopLevel(item: Value) {
    !item.Object? || Enabled(item)
  }

  /**
   * A mapping stays as it is; anything else becomes `{"name": entry}`. The
   * result is always a mapping, and an enabled one exactly for kept entries.
   */
  function AsItem(item: Value): (r: Value)
    ensures r.Object?
    ensures Enabled(r) <==> KeptAtTopLevel(item)
    ensures item.Object? ==> r == item
    ensures !item.Object? ==> r.fields.Keys == {"name"} && Get(r.fields, "name") == item
  {
    if item.Object? then item else NameOnly(item)
  }

  /**
   * `enabled_top_level`: `[]` unless the section is a list; otherwise, in
   * order, every non-mapping entry wrapped as `{"name": entry}` and every
   * enabled mapping unchanged, so that every output is an enabled mapping.
   */
  function EnabledTopLevel(config: map<string, Value>, section: string): (r: seq<Value>)
    ensures (section !in config || !config[section].List?) ==> r == []
    ensures |r| <= |TopItems(config, section)|
    ensures |r| == |Filter(KeptAtTopLevel, TopItems(config, section))|
    ensures forall i :: 0 <= i < |r| ==> Enabled(r[i])
    ensures IsSubsequence(r, MapSeq(AsItem, TopItems(config, section)))
    ensures forall x :: x in TopItems(config, section) && KeptAtTopLevel(x) ==> AsItem(x) in r
  {
    var items := GetOr(config, section, List([]));
    if !items.List? then []
    else
      var kept := Filter(KeptAtTopLevel, items.items);
      MapKeepsSubsequence(AsItem, kept, items.items);
      KeptAreListed(kept, items.items);
      MapSeq(AsItem, kept)
  }

  /** Every kept entry shows up, wrapped, in the output. */
  lemma KeptAreListed(kept: seq<Value>, items: seq<Value>)
    requires kept == Filter(KeptAtTopLevel, items)
    ensures forall x :: x in items && KeptAtTopLevel(x) ==> AsItem(x) in MapSeq(AsItem, kept)
  {
    forall x | x in items && KeptAtTopLevel(x)
      ensures AsItem(x) in MapSeq(AsItem, kept)
    {
      assert multiset(items)[x] > 0;
      assert multiset(kept)[x] > 0;
      var i :| 0 <= i < |kept| && kept[i] == x;
      assert MapSeq(AsItem, kept)[i] == AsItem(x);
    }
  }

  /** `item.get("name") or item.get("id")`. */
  function NameOrId(item: Value): Value {
    if !item.Object? then Null
    else if Truthy(Get(item.fields, "name")) then item.fields["name"]
    else Get(item.fields, "id")
  }

  predicate HasNameOrId(item: Value) {
    Truthy(NameOrId(item))
  }

  /**
   * `package_names`: for each enabled item in order, its `name` if truthy,
   * else its `id`; items with neither are dropped.
   */
  function PackageNames(config: map<string, Value>, section: string, group: string): (r: seq<Value>)
    requires GroupShaped(config, section, group)
    ensures |r| <= |EnabledItems(config, section, group)|
    ensures |r| == |Filter(HasNameOrId, EnabledItems(config, section, group))|
    ensures forall i :: 0 <= i < |r| ==> Truthy(r[i])
    ensures IsSubsequence(r, MapSeq(NameOrId, EnabledItems(config, section, group)))
    ensures forall it :: it in EnabledItems(config, section, group) && Truthy(Get(it.fields, "name")) ==>
      it.fields["name"] in r
    ensures forall it ::
      (it in EnabledItems(config, section, group) && !Truthy(Get(it.fields, "name")) && Truthy(Get(it.fields, "id")))
      ==> it.fields["id"] in r
  {
    var items := EnabledItems(config, section, group);
    var named := Filter(HasNameOrId, items);
    MapKeepsSubsequence(NameOrId, named, items);
    NamedAreListed(named, items);
    MapSeq(NameOrId, named)
  }

  lemma NamedAreListed(named: seq<Value>, items: seq<Value>)
    requires named == Filter(HasNameOrId, items)
    ensures forall it :: it in items && HasNameOrId(it) ==> NameOrId(it) in MapSeq(NameOrId, named)
  {
    forall it | it in items && HasNameOrId(it)
      ensures NameOrId(it) in MapSeq(NameOrId, named)
    {
      assert multiset(items)[it] > 0;
      assert multiset(named)[it] > 0;
      var i :| 0 <= i < |named| && named[i] == it;
      assert MapSeq(NameOrId, named)[i] == NameOrId(it);
    }
  }

  /**
   * The items `to_json` serialises: `enabled_items` when a non-empty group is
   * given, `enabled_top_level` otherwise; either way only enabled mappings.
   */
  function JsonItems(config: map<string, Value>, section: string, group: Option<string>): (r: seq<Value>)
    requires group.Some? && group.value != [] ==> GroupShaped(config, section, group.value)
    ensures group.Some? && group.value != [] ==> r == EnabledItems(config, section, group.value)
    ensures group.None? || group.value == [] ==> r == EnabledTopLevel(config, section)
    ensures forall i :: 0 <= i < |r| ==> r[i].Object? && Enabled(r[i])
  {
    if group.Some? && group.value != [] then EnabledItems(config, section, group.value)
    else EnabledTopLevel(config, section)
  }
}
