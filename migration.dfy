/** Migration selection: which files of the migrators directory become migrators, the
    order they are kept in, which of them run at start-up, and running one by name. */
module Migration {
  import opened JsValues

  /** A constructed migrator. An absent or empty `name` is the empty string. */
  datatype Migrator = Migrator(name: string, index: int, autorun: bool)

  /** What `new migtatorClass()` gives: a throw, an object that is not a `Migrator`,
      or a migrator. */
  datatype Construction = ConstructorThrows | NotAMigrator | Constructed(m: Migrator)

  /** One member of a loaded module: a falsy value, a truthy value that is not a
      function, or a class. */
  datatype Member = Falsy | NotAFunction | Class(construct: Construction)

  /** What `require` makes of a file: a throw, or the module and its `default` member. */
  datatype Import = ImportThrows | Exports(defaultExport: Member, moduleExport: Member)

  /** `s.slice(-n)`: the last `n` characters, or all of `s` when it is shorter; `slice(-0)`
      is `slice(0)`, the whole string. */
  function Last(s: string, n: nat): (r: string)
    ensures |r| == if n == 0 || |s| <= n then |s| else n
    ensures s == s[..|s| - |r|] + r
  {
    if n == 0 || |s| <= n then s else s[|s| - n..]
  }

  predicate EndsWith(s: string, suffix: string) {
    |suffix| <= |s| && s[|s| - |suffix|..] == suffix
  }

  /** `isImportable`: the last three characters are `.js`, or `.ts` without `.d.ts` before. */
  predicate IsImportable(file: string) {
    Last(file, 3) == ".js" || (Last(file, 3) == ".ts" && Last(file, 5) != ".d.ts")
  }

  /** The file test in suffix terms: a JavaScript file, or a TypeScript file that is no
      declaration file. */
  lemma ImportableIff(file: string)
    ensures IsImportable(file) <==>
            EndsWith(file, ".js") || (EndsWith(file, ".ts") && !EndsWith(file, ".d.ts"))
    ensures IsImportable(file) ==> |file| >= 3
  {
    if |file| < 3 {
      assert Last(file, 3) == file;
      assert Last(file, 3) != ".js" && Last(file, 3) != ".ts";
    }
    if |file| < 5 {
      assert Last(file, 5) == file;
      assert !EndsWith(file, ".d.ts");
    }
  }

  /** `migratorExport.default || migratorExport` */
  function ExportedClass(exp: Import): Member
    requires exp.Exports?
  {
    if exp.defaultExport.Falsy? then exp.moduleExport else exp.defaultExport
  }

  /** `loadMigrator(file)`, with `require` of that file given as `exp`. */
  function LoadMigrator(file: string, exp: Import): (r: Option<Migrator>)
    ensures file == "" || !IsImportable(file) ==> r == None
    ensures exp.ImportThrows? ==> r == None
    ensures r.Some? <==>
              file != "" && IsImportable(file) && exp.Exports? &&
              ExportedClass(exp).Class? && ExportedClass(exp).construct.Constructed?
    ensures r.Some? ==>
              var m := ExportedClass(exp).construct.m;
              r.value.index == m.index && r.value.autorun == m.autorun &&
              (m.name != "" ==> r.value.name == m.name) &&
              (m.name == "" ==> r.value.name + Last(file, 3) == file && |Last(file, 3)| == 3)
  {
    if file == "" || !IsImportable(file) then None
    else
      ImportableIff(file);
      match exp
      case ImportThrows => None
      case Exports(_, _) =>
        match ExportedClass(exp)
        case Class(Constructed(m)) =>
          if m.name == "" then Some(m.(name := file[..|file| - 3])) else Some(m)
        case _ => None
  }

  /** A nameless migrator from `001-init.ts` is called `001-init`. */
  lemma DefaultName()
    ensures LoadMigrator("001-init.ts", Exports(Class(Constructed(Migrator("", 1, true))), Falsy)) ==
            Some(Migrator("001-init", 1, true))
  {
    var file := "001-init.ts";
    assert Last(file, 3) == ".ts";
    assert Last(file, 5) == "it.ts";
    assert file[..|file| - 3] == "001-init";
  }

  /** `.filter(m => m != null)`: the present values, in order. */
  function Present(s: seq<Option<Migrator>>): (r: seq<Migrator>)
    decreases |s|
    ensures |r| <= |s|
    ensures forall m :: m in r <==> Some(m) in s
  {
    if s == [] then []
    else
      assert s == [s[0]] + s[1..];
      (if s[0].Some? then [s[0].value] else []) + Present(s[1..])
  }

  /** Filtering keeps order and multiplicity: one more value adds itself, if present, at the end. */
  lemma {:induction false} PresentAppend(s: seq<Option<Migrator>>, o: Option<Migrator>)
    ensures Present(s + [o]) == Present(s) + (if o.Some? then [o.value] else [])
    decreases |s|
  {
    var t := s + [o];
    if s == [] {
      assert t[1..] == [];
    } else {
      assert t[0] == s[0] && t[1..] == s[1..] + [o];
      PresentAppend(s[1..], o);
    }
  }

  /** `files.map(f => loadMigrator(f)).filter(m => m != null)`, with `require` as `load`. */
  function Loaded(files: seq<string>, load: string -> Import): (r: seq<Migrator>)
    ensures |r| <= |files|
    ensures forall m :: m in r <==>
              exists j :: 0 <= j < |files| && LoadMigrator(files[j], load(files[j])) == Some(m)
  {
    var loads := seq(|files|, j requires 0 <= j < |files| => LoadMigrator(files[j], load(files[j])));
    assert forall m :: Some(m) in loads <==>
                       exists j :: 0 <= j < |files| && LoadMigrator(files[j], load(files[j])) == Some(m) by {
      forall m | Some(m) in loads
        ensures exists j :: 0 <= j < |files| && LoadMigrator(files[j], load(files[j])) == Some(m)
      {
        var j :| 0 <= j < |loads| && loads[j] == Some(m);
        assert LoadMigrator(files[j], load(files[j])) == Some(m);
      }
      forall m, j | 0 <= j < |files| && LoadMigrator(files[j], load(files[j])) == Some(m)
        ensures Some(m) in loads
      {
        assert loads[j] == Some(m);
      }
    }
    Present(loads)
  }

  /** Loading keeps the directory order: one more file adds its migrator, if it loads, at the end. */
  lemma {:induction false} LoadedAppend(files: seq<string>, f: string, load: string -> Import)
    ensures Loaded(files + [f], load) ==
            Loaded(files, load) + (match LoadMigrator(f, load(f)) case Some(m) => [m] case None => [])
  {
    var all := files + [f];
    var loads := seq(|files|, j requires 0 <= j < |files| => LoadMigrator(files[j], load(files[j])));
    var loads' := seq(|all|, j requires 0 <= j < |all| => LoadMigrator(all[j], load(all[j])));
    assert loads' == loads + [LoadMigrator(f, load(f))];
    PresentAppend(loads, LoadMigrator(f, load(f)));
  }

  predicate Sorted(s: seq<Migrator>) {
    forall i, j :: 0 <= i < j < |s| ==> s[i].index <= s[j].index
  }

  /** The migrators of `s` with index `k`, in their order in `s`. */
  function OfIndex(s: seq<Migrator>, k: int): (r: seq<Migrator>)
    decreases |s|
  {
    if s == [] then []
    else (if s[0].index == k then [s[0]] else []) + OfIndex(s[1..], k)
  }

  /** `x` placed in front of the first element whose index is not smaller. */
  function Insert(x: Migrator, t: seq<Migrator>): (r: seq<Migrator>)
    decreases |t|
    ensures multiset(r) == multiset{x} + multiset(t)
  {
    if t == [] || x.index <= t[0].index then [x] + t
    else
      assert t == [t[0]] + t[1..];
      [t[0]] + Insert(x, t[1..])
  }

  /** Inserting into a list whose indices are all at least `b` an element whose index is at
      least `b` keeps every index at least `b`. */
  lemma {:induction false} InsertLowerBound(x: Migrator, t: seq<Migrator>, b: int)
    requires b <= x.index && forall j :: 0 <= j < |t| ==> b <= t[j].index
    ensures forall j :: 0 <= j < |Insert(x, t)| ==> b <= Insert(x, t)[j].index
    decreases |t|
  {
    if t != [] && x.index > t[0].index {
      InsertLowerBound(x, t[1..], b);
    }
  }

  lemma {:induction false} InsertSorted(x: Migrator, t: seq<Migrator>)
    requires Sorted(t)
    ensures Sorted(Insert(x, t))
    decreases |t|
  {
    if t != [] && x.index > t[0].index {
      InsertSorted(x, t[1..]);
      InsertLowerBound(x, t[1..], t[0].index);
    }
  }

  /** Inserting `x` adds it to the migrators of its own index, in front, and leaves
      every other index alone. */
  lemma {:induction false} InsertOfIndex(x: Migrator, t: seq<Migrator>, k: int)
    ensures OfIndex(Insert(x, t), k) == (if x.index == k then [x] else []) + OfIndex(t, k)
    decreases |t|
  {
    if t == [] || x.index <= t[0].index {
      assert ([x] + t)[1..] == t;
    } else {
      var rest := Insert(x, t[1..]);
      InsertOfIndex(x, t[1..], k);
      assert ([t[0]] + rest)[1..] == rest;
    }
  }

  /** `_.sortBy(s, m => m.index)`: insertion of each element, last one first. */
  function SortByIndex(s: seq<Migrator>): (r: seq<Migrator>)
    decreases |s|
    ensures multiset(r) == multiset(s)
  {
    if s == [] then []
    else
      assert s == [s[0]] + s[1..];
      Insert(s[0], SortByIndex(s[1..]))
  }

  /** The sort is ascending by index. */
  lemma {:induction false} SortSorted(s: seq<Migrator>)
    ensures Sorted(SortByIndex(s))
    decreases |s|
  {
    if s != [] {
      SortSorted(s[1..]);
      InsertSorted(s[0], SortByIndex(s[1..]));
    }
  }

  /** The sort is stable: the migrators of each index keep their original order. */
  lemma {:induction false} SortStable(s: seq<Migrator>, k: int)
    ensures OfIndex(SortByIndex(s), k) == OfIndex(s, k)
    decreases |s|
  {
    if s != [] {
      SortStable(s[1..], k);
      InsertOfIndex(s[0], SortByIndex(s[1..]), k);
    }
  }

  /** The migrators of `s` that have `autorun` set, in their order in `s`. */
  function Autoruns(s: seq<Migrator>): seq<Migrator>
    decreases |s|
  {
    if s == [] then []
    else (if s[0].autorun then [s[0]] else []) + Autoruns(s[1..])
  }

  /** The selected migrators are exactly those with `autorun` set. */
  lemma {:induction false} AutorunsMembers(s: seq<Migrator>)
    ensures forall m :: m in Autoruns(s) <==> m in s && m.autorun
    decreases |s|
  {
    if s != [] {
      AutorunsMembers(s[1..]);
      assert s == [s[0]] + s[1..];
    }
  }

  /** Keeping the autorun migrators of a sorted list keeps it sorted. */
  lemma {:induction false} AutorunsSorted(s: seq<Migrator>)
    requires Sorted(s)
    ensures Sorted(Autoruns(s))
    decreases |s|
  {
    if s != [] {
      AutorunsSorted(s[1..]);
      AutorunsMembers(s[1..]);
      var rest := Autoruns(s[1..]);
      forall j | 0 <= j < |rest| ensures s[0].index <= rest[j].index {
        assert rest[j] in s[1..];
      }
    }
  }

  lemma {:induction false} AutorunsAppend(s: seq<Migrator>, m: Migrator)
    ensures Autoruns(s + [m]) == Autoruns(s) + (if m.autorun then [m] else [])
    decreases |s|
  {
    var tail := if m.autorun then [m] else [];
    if s == [] {
      assert [m][1..] == [];
    } else {
      var t := s + [m];
      var head := if s[0].autorun then [s[0]] else [];
      assert t[0] == s[0] && t[1..] == s[1..] + [m];
      AutorunsAppend(s[1..], m);
      assert Autoruns(t) == head + (Autoruns(s[1..]) + tail);
      assert head + (Autoruns(s[1..]) + tail) == (head + Autoruns(s[1..])) + tail;
    }
  }

  lemma AutorunsStep(s: seq<Migrator>, i: nat)
    requires i < |s|
    ensures Autoruns(s[..i + 1]) == Autoruns(s[..i]) + (if s[i].autorun then [s[i]] else [])
  {
    assert s[..i + 1] == s[..i] + [s[i]];
    AutorunsAppend(s[..i], s[i]);
  }

  /** `MIGRATORS.find(m => m.name == name)`. */
  function FindByName(s: seq<Migrator>, name: string): (r: Option<Migrator>)
    decreases |s|
    ensures r.None? <==> forall j :: 0 <= j < |s| ==> s[j].name != name
    ensures r.Some? ==> exists j :: 0 <= j < |s| && s[j] == r.value && r.value.name == name &&
                                    forall i :: 0 <= i < j ==> s[i].name != name
  {
    if s == [] then None
    else if s[0].name == name then Some(s[0])
    else
      var r := FindByName(s[1..], name);
      assert r.Some? ==> exists j :: 0 <= j < |s| && s[j] == r.value && r.value.name == name &&
                                     forall i :: 0 <= i < j ==> s[i].name != name by {
        if r.Some? {
          var j :| 0 <= j < |s[1..]| && s[1..][j] == r.value && r.value.name == name &&
                   forall i :: 0 <= i < j ==> s[1..][i].name != name;
          assert s[j + 1] == r.value;
          assert forall i :: 0 <= i < j + 1 ==> s[i].name != name;
        }
      }
      r
  }

  /** The `Migrator` statics: the stored `MIGRATORS` list and the log of `migrate` calls. */
  class Migrations {
    var migrators: seq<Migrator>
    var ran: seq<Migrator>

    constructor()
      ensures migrators == [] && ran == []
    {
      migrators := [];
      ran := [];
    }

    /** `autoMigrate`, with the directory listing as `files` and `require` as `load`: store
        the loaded migrators sorted by index, then run the autorun ones in that order. */
    method AutoMigrate(files: seq<string>, load: string -> Import)
      modifies this
      ensures migrators == SortByIndex(Loaded(files, load))
      ensures ran == old(ran) + Autoruns(migrators)
    {
      migrators := SortByIndex(Loaded(files, load));
      RunAutoruns();
    }

    /** The loop of `autoMigrate`: `migrate` every stored autorun migrator, in order. */
    method RunAutoruns()
      modifies this
      ensures migrators == old(migrators)
      ensures ran == old(ran) + Autoruns(migrators)
    {
      for i := 0 to |migrators|
        invariant migrators == old(migrators)
        invariant ran == old(ran) + Autoruns(migrators[..i])
      {
        AutorunsStep(migrators, i);
        if migrators[i].autorun {
          ran := ran + [migrators[i]];
        }
      }
      assert migrators[..|migrators|] == migrators;
    }

    /** `runMigrate(name)`: run the first stored migrator with that name, if any. */
    method RunMigrate(name: string)
      modifies this
      ensures migrators == old(migrators)
      ensures ran == old(ran) + match FindByName(migrators, name)
                                case None => []
                                case Some(m) => [m]
    {
      var found := FindByName(migrators, name);
      if found.Some? {
        ran := ran + [found.value];
      }
    }
  }

  /** The migrations run at start-up are exactly the loaded autorun migrators, in
      ascending index order. */
  lemma {:induction false} StartupRuns(files: seq<string>, load: string -> Import)
    ensures var run := Autoruns(SortByIndex(Loaded(files, load)));
      Sorted(run) &&
      forall m :: m in run <==>
                    (m.autorun && exists j :: 0 <= j < |files| && LoadMigrator(files[j], load(files[j])) == Some(m))
  {
    var loaded := Loaded(files, load);
    var sorted := SortByIndex(loaded);
    SortSorted(loaded);
    AutorunsSorted(sorted);
    AutorunsMembers(sorted);
    SortMembers(loaded);
  }

  /** Sorting keeps exactly the same migrators. */
  lemma SortMembers(s: seq<Migrator>)
    ensures forall m :: m in SortByIndex(s) <==> m in s
  {
    var r := SortByIndex(s);
    forall m ensures m in r <==> m in s {
      assert m in r <==> m in multiset(r);
      assert m in s <==> m in multiset(s);
    }
  }
}
