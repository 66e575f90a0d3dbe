/**
 The -d (diff) and -a (apply) runs of diffconf2.py on two configurations, and the law
 they are made for: applying a printed diff to the first yields the second.
 */
module DiffConf {
  import opened ConfigText

  // ------------------------------------------------------------------- sorting

  /** Python's order on strings: code point by code point. */
  predicate Less(s: string, t: string) {
    t != "" && (s == "" || s[0] < t[0] || (s[0] == t[0] && Less(s[1..], t[1..])))
  }

  lemma {:induction false} LessTotal(s: string, t: string)
    requires s != t
    ensures Less(s, t) != Less(t, s)
  {
    if s != "" && t != "" && s[0] == t[0] {
      assert s[1..] != t[1..] by {
        assert s == [s[0]] + s[1..] && t == [t[0]] + t[1..];
      }
      LessTotal(s[1..], t[1..]);
    }
  }

  lemma {:induction false} LessTransitive(s: string, t: string, u: string)
    requires Less(s, t) && Less(t, u)
    ensures Less(s, u)
  {
    if s != "" && s[0] == t[0] == u[0] {
      LessTransitive(s[1..], t[1..], u[1..]);
    }
  }

  ghost predicate Sorted(names: seq<string>) {
    forall i, j :: 0 <= i < j < |names| ==> Less(names[i], names[j])
  }

  method Least(names: set<string>) returns (least: string)
    requires names != {}
    ensures least in names && forall c :: c in names && c != least ==> Less(least, c)
  {
    least :| least in names;
    var rest := names - {least};
    while rest != {}
      invariant least in names && rest <= names
      invariant forall c :: c in names && c !in rest && c != least ==> Less(least, c)
      decreases |rest|
    {
      var c :| c in rest;
      rest := rest - {c};
      if c != least {
        LessTotal(c, least);
        if Less(c, least) {
          forall x | x in names && x !in rest && x != c && x != least
            ensures Less(c, x)
          {
            LessTransitive(c, least, x);
          }
          least := c;
        }
      }
    }
  }

  /** The built-in sort of the tool's lists of distinct names. */
  method Sort(names: set<string>) returns (sorted: seq<string>)
    ensures Sorted(sorted) && forall c :: c in sorted <==> c in names
  {
    sorted := [];
    var rest := names;
    while rest != {}
      invariant rest <= names && Sorted(sorted)
      invariant forall c :: c in names <==> c in sorted || c in rest
      invariant forall i, c :: 0 <= i < |sorted| && c in rest ==> Less(sorted[i], c)
      decreases |rest|
    {
      var c := Least(rest);
      sorted := sorted + [c];
      rest := rest - {c};
    }
  }

  // ------------------------------------------------------------ diff and apply

  method PrintOptions(style: Style, names: seq<string>, values: Config) returns (text: string)
    ensures text == PrintAll(style, names, values)
  {
    text := "";
    var i := 0;
    assert names[0..] == names;
    while i < |names|
      invariant 0 <= i <= |names|
      invariant PrintAll(style, names, values) == text + PrintAll(style, names[i..], values)
    {
      assert names[i..][1..] == names[i + 1..];
      ghost var rest := PrintAll(style, names[i + 1..], values);
      assert text + (Print(style, names[i], values) + rest) == text + Print(style, names[i], values) + rest;
      text := text + Print(style, names[i], values);
      i := i + 1;
    }
  }

  lemma Associate(p: string, q: string, r: string)
    ensures p + (q + r) == p + q + r
  {
  }

  lemma {:induction false} PrintAllAppend(style: Style, xs: seq<string>, ys: seq<string>, values: Config)
    ensures PrintAll(style, xs + ys, values) == PrintAll(style, xs, values) + PrintAll(style, ys, values)
  {
    if xs == [] {
      assert xs + ys == ys;
    } else {
      PrintAllAppend(style, xs[1..], ys, values);
      assert (xs + ys)[1..] == xs[1..] + ys;
      Associate(Print(style, xs[0], values), PrintAll(style, xs[1..], values), PrintAll(style, ys, values));
    }
  }

  /** Printing looks at the values of the printed names only. */
  lemma {:induction false} PrintAllSame(style: Style, names: seq<string>, v: Config, w: Config)
    requires forall c :: c in names ==> (c in v <==> c in w) && (c in v ==> v[c] == w[c])
    ensures PrintAll(style, names, v) == PrintAll(style, names, w)
  {
    if names != [] {
      PrintAllSame(style, names[1..], v, w);
    }
  }

  /** The names a diff lists: those whose entry differs between the two. */
  ghost predicate Differs(a: Config, b: Config, c: string) {
    (c in a || c in b) && !(c in a && c in b && a[c] == b[c])
  }

  lemma ThreeParts(removed: seq<string>, changed: seq<string>, added: seq<string>, v: Config, w: Config, b: Config)
    requires forall c :: c in removed ==> c !in b
    requires forall c :: c in changed ==> c in v && c in b && v[c] == b[c]
    requires forall c :: c in added ==> c in w && c in b && w[c] == b[c]
    ensures PrintAll(Diff, removed, map[]) + PrintAll(Diff, changed, v) + PrintAll(Diff, added, w)
            == PrintAll(Diff, removed + changed + added, b)
  {
    PrintAllSame(Diff, removed, map[], b);
    PrintAllSame(Diff, changed, v, b);
    PrintAllSame(Diff, added, w, b);
    PrintAllAppend(Diff, removed, changed, b);
    PrintAllAppend(Diff, removed + changed, added, b);
  }

  datatype Entry = Absent | Present(value: string)

  function Look(m: Config, c: string): Entry {
    if c in m then Present(m[c]) else Absent
  }

  lemma SameEntries(m: Config, n: Config)
    requires forall c :: Look(m, c) == Look(n, c)
    ensures m == n
  {
    assert forall c :: c in m <==> Look(m, c).Present?;
    assert forall c :: c in n <==> Look(n, c).Present?;
  }

  /** Printing a part of the diff deletes its names from the dictionary. */
  method Drop(m: Config, names: seq<string>) returns (rest: Config)
    ensures forall c :: Look(rest, c) == if c in names then Absent else Look(m, c)
  {
    rest := m;
    for i := 0 to |names|
      invariant forall c :: Look(rest, c) == if c in names[..i] then Absent else Look(m, c)
    {
      assert names[..i + 1] == names[..i] + [names[i]];
      rest := rest - {names[i]};
    }
    assert names[..|names|] == names;
  }

  /** The names of a that b lacks. */
  method Removed(a: Config, b: Config) returns (removed: seq<string>)
    ensures Sorted(removed) && forall c :: c in removed <==> c in a && c !in b
  {
    removed := Sort(set c | c in a && c !in b);
  }

  /** The names with two different values; names with equal values leave b on the way. */
  method Changed(a: Config, b0: Config) returns (changed: seq<string>, b: Config)
    requires forall c :: c in a ==> c in b0
    ensures Sorted(changed) && forall c :: c in changed <==> c in a && a[c] != b0[c]
    ensures forall c :: Look(b, c) == if c in a && a[c] == b0[c] then Absent else Look(b0, c)
  {
    b := b0;
    var found, rest := {}, a.Keys;
    while rest != {}
      invariant rest <= a.Keys
      invariant forall c :: c in found <==> c in a && c !in rest && a[c] != b0[c]
      invariant forall c :: Look(b, c) == if c in a && c !in rest && a[c] == b0[c] then Absent else Look(b0, c)
      decreases |rest|
    {
      var c :| c in rest;
      rest := rest - {c};
      assert Look(b, c) == Look(b0, c);
      if a[c] != b[c] {
        found := found + {c};
      } else {
        b := b - {c};
      }
    }
    changed := Sort(found);
  }

  /** The diff run: removed names first, then changed, then new ones, each part sorted. */
  method DiffConfigs(a0: Config, b0: Config)
      returns (text: string, removed: seq<string>, changed: seq<string>, added: seq<string>)
    ensures Sorted(removed) && Sorted(changed) && Sorted(added)
    ensures forall c :: c in removed <==> c in a0 && c !in b0
    ensures forall c :: c in changed <==> c in a0 && c in b0 && a0[c] != b0[c]
    ensures forall c :: c in added <==> c in b0 && c !in a0
    ensures text == PrintAll(Diff, removed + changed + added, b0)
  {
    removed := Removed(a0, b0);
    var first := PrintOptions(Diff, removed, map[]);
    var a := Drop(a0, removed);
    Shared(a0, b0, a);
    var b;
    changed, b := Changed(a, b0);
    var second := PrintOptions(Diff, changed, b);
    var b' := Drop(b, changed);
    Rest(a0, b0, a, b, b', changed);
    added := Sort(b'.Keys);
    var third := PrintOptions(Diff, added, b');
    text := first + second + third;
    ThreeParts(removed, changed, added, b, b', b0);
  }

  lemma Shared(a0: Config, b0: Config, a: Config)
    requires forall c :: Look(a, c) == if c in a0 && c !in b0 then Absent else Look(a0, c)
    ensures forall c :: c in a <==> c in a0 && c in b0
    ensures forall c :: c in a ==> a[c] == a0[c]
  {
    forall c
      ensures c in a <==> c in a0 && c in b0
      ensures c in a ==> a[c] == a0[c]
    {
      assert Look(a, c) == if c in a0 && c !in b0 then Absent else Look(a0, c);
    }
  }

  /** After the first two parts b holds what is new, and the changed names had their new values until then. */
  lemma Rest(a0: Config, b0: Config, a: Config, b: Config, b': Config, changed: seq<string>)
    requires forall c :: c in a <==> c in a0 && c in b0
    requires forall c :: c in a ==> a[c] == a0[c]
    requires forall c :: c in changed <==> c in a && a[c] != b0[c]
    requires forall c :: Look(b, c) == if c in a && a[c] == b0[c] then Absent else Look(b0, c)
    requires forall c :: Look(b', c) == if c in changed then Absent else Look(b, c)
    ensures forall c :: c in changed ==> c in b && b[c] == b0[c]
    ensures forall c :: c in b' <==> c in b0 && c !in a0
    ensures forall c :: c in b' ==> b'[c] == b0[c]
  {
    forall c
      ensures c in changed ==> c in b && b[c] == b0[c]
      ensures c in b' <==> c in b0 && c !in a0
      ensures c in b' ==> b'[c] == b0[c]
    {
      assert Look(b', c) == if c in changed then Absent else Look(b, c);
      assert Look(b, c) == if c in a && a[c] == b0[c] then Absent else Look(b0, c);
    }
  }

  /** The entry an apply run leaves for a name: "-" deletes, anything else overrides. */
  function Merged(a: Entry, d: Entry): Entry {
    if d.Absent? then a else if d.value == "-" then Absent else d
  }

  method Merge(a: Config, d: Config) returns (merged: Config)
    ensures forall c :: Look(merged, c) == Merged(Look(a, c), Look(d, c))
  {
    merged := a;
    var rest := d.Keys;
    while rest != {}
      invariant rest <= d.Keys
      invariant forall c :: Look(merged, c) == if c in rest then Look(a, c) else Merged(Look(a, c), Look(d, c))
      decreases |rest|
    {
      var c :| c in rest;
      rest := rest - {c};
      if d[c] == "-" {
        if c in merged {
          merged := merged - {c};
        }
      } else {
        merged := merged[c := d[c]];
      }
    }
  }

  /** The apply run; its whole output is sorted. */
  method ApplyDiff(a: Config, d: Config) returns (text: string, names: seq<string>, merged: Config)
    ensures Sorted(names) && forall c :: c in names <==> c in merged
    ensures forall c :: Look(merged, c) == Merged(Look(a, c), Look(d, c))
    ensures text == PrintAll(Apply, names, merged)
  {
    merged := Merge(a, d);
    names := Sort(merged.Keys);
    text := PrintOptions(Apply, names, merged);
  }

  // ----------------------------------------------------------------- round trip

  predicate Comparable(a: Config, b: Config) {
    && (forall c :: c in a ==> WellFormedName(c))
    && (forall c :: c in b ==> WellFormedName(c) && PlainValue(b[c]))
  }

  /** An entry of b that survives the trip: not empty, and "-" only where a had it already. */
  predicate Survives(a: Config, b: Config, c: string)
    requires c in b
  {
    b[c] != "" && (b[c] == "-" ==> c in a && a[c] == "-")
  }

  /** What is left of b after the trip. */
  function Surviving(a: Config, b: Config): Config {
    map c | c in b && Survives(a, b, c) :: b[c]
  }

  /** One name through both readings: the diff read into d, d merged into m, m read into u. */
  lemma TripAt(a: Config, b: Config, names: seq<string>, m: Config, names': seq<string>, c: string)
    requires forall x :: x in names <==> Differs(a, b, x)
    requires Look(m, c) == Merged(Look(a, c), Look(PutAll(Diff, map[], names, b), c))
    requires forall x :: x in names' <==> x in m
    ensures Look(PutAll(Apply, map[], names', m), c) == Look(Surviving(a, b), c)
    ensures c in m ==> c in b && m[c] == b[c]
  {
    PutAllAt(Diff, map[], names, b, c);
    PutAllAt(Apply, map[], names', m, c);
  }

  lemma Trip(a: Config, b: Config, names: seq<string>, m: Config, names': seq<string>)
    requires forall x :: x in names <==> Differs(a, b, x)
    requires forall c :: Look(m, c) == Merged(Look(a, c), Look(PutAll(Diff, map[], names, b), c))
    requires forall x :: x in names' <==> x in m
    ensures PutAll(Apply, map[], names', m) == Surviving(a, b)
    ensures forall c :: c in m ==> c in b && m[c] == b[c]
  {
    forall c
      ensures Look(PutAll(Apply, map[], names', m), c) == Look(Surviving(a, b), c)
      ensures c in m ==> c in b && m[c] == b[c]
    {
      TripAt(a, b, names, m, names', c);
    }
    SameEntries(PutAll(Apply, map[], names', m), Surviving(a, b));
  }

  lemma SurvivingAll(a: Config, b: Config)
    ensures Surviving(a, b) == b <==> forall c :: c in b ==> Survives(a, b, c)
  {
    assert forall c :: c in Surviving(a, b) <==> c in b && Survives(a, b, c);
  }

  /**
   Print the diff of a and b, read it, apply it to a, read the result: this gives the
   surviving part of b, hence b itself exactly when every entry of b survives.
   */
  method DiffThenApply(a: Config, b: Config) returns (r: Result)
    ensures Comparable(a, b) ==> r == Ok(Surviving(a, b))
    ensures Comparable(a, b) ==> (r == Ok(b) <==> forall c :: c in b ==> Survives(a, b, c))
  {
    var text, removed, changed, added := DiffConfigs(a, b);
    ghost var names := removed + changed + added;
    if Comparable(a, b) {
      ReadsBack(Diff, map[], names, b);
    }
    var diff := ReadConfig(text);
    if diff.Err? {
      return Err;
    }
    var text', names', m := ApplyDiff(a, diff.config);
    r := ReadConfig(text');
    if Comparable(a, b) {
      Trip(a, b, names, m, names');
      ReadsBack(Apply, map[], names', m);
      SurvivingAll(a, b);
    }
  }

  /** Where the trip fails on an admissible pair: an empty value, and a "-" that a does not hold. */
  lemma TripLosesEntries()
    ensures Surviving(map[], map["A" := ""]) == map[] && Surviving(map[], map["A" := "-"]) == map[]
    ensures Surviving(map["A" := "-"], map["A" := "-"]) == map["A" := "-"]
  {
  }
}
