// Model of Config (core/config.cpp): an ordered list of loaded settings
// files. value() answers from the first file that holds the key, groups()
// collects the files' sections, and loadConfig() loads the main file and
// then the files of the conf.d directory in name order. A settings file
// (QSettings in INI format) is reduced to its key/value map and its list
// of sections; the file system is a parameter giving, for each file, its
// settings or nothing when it is missing or fails to parse.
module Config {
  import opened Common

  /** A loaded QSettings: key ("group/key") to value, and its child groups in file order. */
  datatype Settings = Settings(values: map<string, string>, childGroups: seq<string>)

  // ---------------------------------------------------------------------
  // Name order of the conf.d directory
  // ---------------------------------------------------------------------

  /**
   * The order in which the directory lists its files: lexicographic by
   * character code, a proper prefix first (QDir::Name without flags, which
   * is case-sensitive).
   */
  predicate NameLess(a: string, b: string)
  {
    if a == [] then b != []
    else if b == [] then false
    else if a[0] != b[0] then a[0] < b[0]
    else NameLess(a[1..], b[1..])
  }

  lemma {:induction false} NameLessAsymmetric(a: string, b: string)
    ensures !(NameLess(a, b) && NameLess(b, a))
  {
    if a != [] && b != [] && a[0] == b[0] {
      NameLessAsymmetric(a[1..], b[1..]);
    }
  }

  lemma {:induction false} NameLessTotal(a: string, b: string)
    requires a != b
    ensures NameLess(a, b) || NameLess(b, a)
  {
    if a != [] && b != [] && a[0] == b[0] {
      assert a == [a[0]] + a[1..] && b == [b[0]] + b[1..];
      NameLessTotal(a[1..], b[1..]);
    }
  }

  lemma {:induction false} NameLessTransitive(a: string, b: string, c: string)
    requires NameLess(a, b) && NameLess(b, c)
    ensures NameLess(a, c)
  {
    if a != [] && a[0] == b[0] && b[0] == c[0] {
      NameLessTransitive(a[1..], b[1..], c[1..]);
    }
  }

  /** Every non-empty set of names has a first one. */
  lemma {:induction false} FirstNameExists(s: set<string>) returns (m: string)
    requires s != {}
    ensures m in s && forall x :: x in s && x != m ==> NameLess(m, x)
  {
    if forall x :: x !in s { assert false; }
    var y :| y in s;
    if s == {y} {
      m := y;
    } else {
      var m' := FirstNameExists(s - {y});
      NameLessTotal(y, m');
      m := if NameLess(y, m') then y else m';
      forall x | x in s && x != m ensures NameLess(m, x) {
        if x == y || x == m' {
          NameLessTotal(m, x);
          NameLessAsymmetric(m, x);
        } else {
          assert NameLess(m', x);
          if m == y {
            NameLessTransitive(y, m', x);
          }
        }
      }
    }
  }

  lemma HasFirstName(s: set<string>)
    requires s != {}
    ensures exists m :: m in s && forall x :: x in s && x != m ==> NameLess(m, x)
  {
    var m := FirstNameExists(s);
  }

  /** The first name of a non-empty set. */
  function FirstName(s: set<string>): (m: string)
    requires s != {}
    ensures m in s && forall x :: x in s && x != m ==> NameLess(m, x)
  {
    HasFirstName(s);
    forall a, b | NameLess(a, b) ensures !NameLess(b, a) {
      NameLessAsymmetric(a, b);
    }
    var m :| m in s && forall x :: x in s && x != m ==> NameLess(m, x);
    m
  }

  predicate Ascending(names: seq<string>)
  {
    forall i, j :: 0 <= i < j < |names| ==> NameLess(names[i], names[j])
  }

  /** A name before every name of an ascending list starts an ascending list. */
  lemma ConsAscending(m: string, rest: seq<string>)
    requires Ascending(rest) && forall x :: x in rest ==> NameLess(m, x)
    ensures Ascending([m] + rest)
  {
    var r := [m] + rest;
    forall i, j | 0 <= i < j < |r| ensures NameLess(r[i], r[j]) {
      assert r[j] == rest[j - 1];
      if i > 0 {
        assert r[i] == rest[i - 1];
      }
    }
  }

  /** entryList(): the directory's file names, each once, in name order. */
  function EntryList(names: set<string>): (r: seq<string>)
    ensures |r| == |names| && (forall x :: x in r <==> x in names) && Ascending(r)
    decreases |names|
  {
    if names == {} then []
    else
      var m := FirstName(names);
      var rest := EntryList(names - {m});
      ConsAscending(m, rest);
      [m] + rest
  }

  // ---------------------------------------------------------------------
  // Specifications of value() and groups()
  // ---------------------------------------------------------------------

  /** value(key, defaultValue) over the loaded files: the first file holding the key answers. */
  ghost function Lookup(settings: seq<Settings>, key: string, defaultValue: string): (r: string)
    ensures r == defaultValue || exists i :: 0 <= i < |settings| && key in settings[i].values && r == settings[i].values[key]
  {
    if settings == [] then defaultValue
    else if key in settings[0].values then settings[0].values[key]
    else
      var r := Lookup(settings[1..], key, defaultValue);
      assert r != defaultValue ==> exists i :: 1 <= i < |settings| && key in settings[i].values && r == settings[i].values[key] by {
        if r != defaultValue {
          var i :| 0 <= i < |settings[1..]| && key in settings[1..][i].values && r == settings[1..][i].values[key];
          assert settings[1..][i] == settings[i + 1];
        }
      }
      r
  }

  /**
   * Lookup gives the default exactly when no file holds the key, and
   * otherwise the value of the first file that does.
   */
  lemma {:induction false} LookupSpec(settings: seq<Settings>, key: string, defaultValue: string, i: int)
    requires 0 <= i <= |settings|
    requires forall j :: 0 <= j < i ==> key !in settings[j].values
    ensures i == |settings| ==> Lookup(settings, key, defaultValue) == defaultValue
    ensures i < |settings| && key in settings[i].values ==> Lookup(settings, key, defaultValue) == settings[i].values[key]
    decreases i
  {
    if i > 0 {
      forall j | 0 <= j < i - 1 ensures key !in settings[1..][j].values {
        assert settings[1..][j] == settings[j + 1];
      }
      LookupSpec(settings[1..], key, defaultValue, i - 1);
    }
  }

  /** Groups appended to `acc` in order, each only if not yet present; `acc` stays in front. */
  function AddGroups(acc: seq<string>, groups: seq<string>): (r: seq<string>)
    ensures |acc| <= |r| && r[..|acc|] == acc
    decreases |groups|
  {
    if groups == [] then acc
    else
      var a := AddGroups(acc, groups[..|groups| - 1]);
      if groups[|groups| - 1] in a then a
      else
        assert (a + [groups[|groups| - 1]])[..|acc|] == a[..|acc|];
        a + [groups[|groups| - 1]]
  }

  /** groups(): the sections of all files in first-seen order; each file's additions follow the earlier ones. */
  function Collected(settings: seq<Settings>): (r: seq<string>)
    ensures settings != [] ==>
      var before := Collected(settings[..|settings| - 1]);
      |before| <= |r| && r[..|before|] == before
    decreases |settings|
  {
    if settings == [] then []
    else AddGroups(Collected(settings[..|settings| - 1]), settings[|settings| - 1].childGroups)
  }

  /** Adding groups keeps a list free of duplicates, and holds exactly the old and the new groups. */
  lemma {:induction false} AddGroupsSpec(acc: seq<string>, groups: seq<string>)
    requires NoDuplicates(acc)
    ensures NoDuplicates(AddGroups(acc, groups))
    ensures forall g :: g in AddGroups(acc, groups) <==> g in acc || g in groups
    decreases |groups|
  {
    if groups != [] {
      var init := groups[..|groups| - 1];
      var last := groups[|groups| - 1];
      AddGroupsSpec(acc, init);
      var a := AddGroups(acc, init);
      assert groups == init + [last];
      if last !in a {
        AppendNewKeepsNoDuplicates(a, last);
      }
    }
  }

  /** Some file has the section. */
  ghost predicate InSomeFile(settings: seq<Settings>, g: string)
  {
    exists i :: 0 <= i < |settings| && g in settings[i].childGroups
  }

  lemma InSomeFileSnoc(settings: seq<Settings>, g: string)
    requires settings != []
    ensures InSomeFile(settings, g) <==>
      InSomeFile(settings[..|settings| - 1], g) || g in settings[|settings| - 1].childGroups
  {
    var init := settings[..|settings| - 1];
    if InSomeFile(init, g) {
      var i :| 0 <= i < |init| && g in init[i].childGroups;
      assert settings[i] == init[i];
    }
    if InSomeFile(settings, g) {
      var i :| 0 <= i < |settings| && g in settings[i].childGroups;
      if i < |init| {
        assert settings[i] == init[i];
      }
    }
  }

  /** groups() holds every section of every file, once. */
  lemma {:induction false} CollectedSpec(settings: seq<Settings>)
    ensures NoDuplicates(Collected(settings))
    ensures forall g :: g in Collected(settings) <==> InSomeFile(settings, g)
    decreases |settings|
  {
    if settings != [] {
      var init := settings[..|settings| - 1];
      var last := settings[|settings| - 1];
      CollectedSpec(init);
      AddGroupsSpec(Collected(init), last.childGroups);
      forall g ensures g in Collected(settings) <==> InSomeFile(settings, g) {
        InSomeFileSnoc(settings, g);
      }
    }
  }

  /** The files that loaded, in load order. */
  function Loaded(files: seq<Option<Settings>>): (r: seq<Settings>)
    ensures |r| <= |files|
  {
    if files == [] then []
    else if files[0].Some? then [files[0].value] + Loaded(files[1..])
    else Loaded(files[1..])
  }

  /** Exactly the files that parsed are loaded. */
  lemma {:induction false} LoadedMembers(files: seq<Option<Settings>>, s: Settings)
    ensures s in Loaded(files) <==> Some(s) in files
  {
    if files != [] {
      LoadedMembers(files[1..], s);
      assert files == [files[0]] + files[1..];
    }
  }

  lemma {:induction false} LoadedAppend(a: seq<Option<Settings>>, b: seq<Option<Settings>>)
    ensures Loaded(a + b) == Loaded(a) + Loaded(b)
  {
    if a != [] {
      assert (a + b)[0] == a[0];
      assert (a + b)[1..] == a[1..] + b;
      LoadedAppend(a[1..], b);
      if a[0].Some? {
        AppendAssociative([a[0].value], Loaded(a[1..]), Loaded(b));
      }
    } else {
      assert a + b == b;
    }
  }

  /**
   * Looking a key up in the loaded files: the first file that parsed and
   * holds the key answers, whatever failed to load before it.
   */
  lemma {:induction false} LookupLoaded(files: seq<Option<Settings>>, key: string, defaultValue: string, i: int)
    requires 0 <= i < |files| && files[i].Some? && key in files[i].value.values
    requires forall j :: 0 <= j < i && files[j].Some? ==> key !in files[j].value.values
    ensures Lookup(Loaded(files), key, defaultValue) == files[i].value.values[key]
    decreases i
  {
    if i > 0 {
      forall j | 0 <= j < i - 1 && files[1..][j].Some? ensures key !in files[1..][j].value.values {
        assert files[1..][j] == files[j + 1];
      }
      LookupLoaded(files[1..], key, defaultValue, i - 1);
      if files[0].Some? {
        assert Loaded(files) == [files[0].value] + Loaded(files[1..]);
      }
    }
  }

  /** Every file of the list loaded. */
  predicate AllLoaded(files: seq<Option<Settings>>)
  {
    forall j :: 0 <= j < |files| ==> files[j].Some?
  }

  /** One more file to load: it is appended when it parses, and the list stays fully loaded only then. */
  lemma LoadStep(settings: seq<Settings>, files: seq<Option<Settings>>, f: Option<Settings>)
    ensures settings + Loaded(files) + Loaded([f]) == settings + Loaded(files + [f])
    ensures AllLoaded(files + [f]) <==> AllLoaded(files) && f.Some?
  {
    LoadedAppend(files, [f]);
    AppendAssociative(settings, Loaded(files), Loaded([f]));
    assert forall j :: 0 <= j < |files| ==> (files + [f])[j] == files[j];
    assert (files + [f])[|files|] == f;
  }

  /** The contents of the conf.d files, in the order given. */
  function Contents(confD: map<string, Option<Settings>>, names: seq<string>): (r: seq<Option<Settings>>)
    requires forall n :: n in names ==> n in confD
    ensures |r| == |names| && forall i :: 0 <= i < |names| ==> r[i] == confD[names[i]]
  {
    seq(|names|, i requires 0 <= i < |names| => confD[names[i]])
  }

  /** The files loadConfig reads, in order: the main file, then the conf.d files by name. */
  function LoadOrder(main: Option<Settings>, confD: map<string, Option<Settings>>): (r: seq<Option<Settings>>)
    ensures |r| == 1 + |confD| && r[0] == main
    ensures forall i :: 1 <= i < |r| ==> r[i] == confD[EntryList(confD.Keys)[i - 1]]
  {
    var names := EntryList(confD.Keys);
    var rest := Contents(confD, names);
    assert |names| == |confD| by {
      assert |confD.Keys| == |confD|;
    }
    assert forall i :: 1 <= i < 1 + |rest| ==> ([main] + rest)[i] == rest[i - 1];
    [main] + rest
  }

  /** Loading the main file and then the conf.d files is loading the whole load order. */
  lemma LoadOrderSplit(settings: seq<Settings>, main: Option<Settings>, confD: map<string, Option<Settings>>)
    ensures var rest := Contents(confD, EntryList(confD.Keys));
      settings + Loaded([main]) + Loaded(rest) == settings + Loaded(LoadOrder(main, confD)) &&
      (AllLoaded(LoadOrder(main, confD)) <==> main.Some? && AllLoaded(rest))
  {
    var rest := Contents(confD, EntryList(confD.Keys));
    LoadedAppend([main], rest);
    AppendAssociative(settings, Loaded([main]), Loaded(rest));
    assert forall j :: 1 <= j < 1 + |rest| ==> ([main] + rest)[j] == rest[j - 1];
  }

  /**
   * The main file wins: after loading into an empty configuration, a key
   * set in the main file reads the main file's value.
   */
  lemma MainFileWins(main: Settings, confD: map<string, Option<Settings>>, key: string, defaultValue: string)
    requires key in main.values
    ensures Lookup(Loaded(LoadOrder(Some(main), confD)), key, defaultValue) == main.values[key]
  {
    LookupLoaded(LoadOrder(Some(main), confD), key, defaultValue, 0);
  }

  /**
   * Among the conf.d files the earlier name wins: when the main file lacks
   * the key, the value comes from the file with the first name among the
   * conf.d files that loaded and hold the key.
   */
  lemma EarlierNameWins(main: Option<Settings>, confD: map<string, Option<Settings>>, key: string,
                        defaultValue: string, name: string)
    requires main.Some? ==> key !in main.value.values
    requires name in confD && confD[name].Some? && key in confD[name].value.values
    requires forall n :: n in confD && NameLess(n, name) && confD[n].Some? ==> key !in confD[n].value.values
    ensures Lookup(Loaded(LoadOrder(main, confD)), key, defaultValue) == confD[name].value.values[key]
  {
    var names := EntryList(confD.Keys);
    var files := LoadOrder(main, confD);
    var k :| 0 <= k < |names| && names[k] == name;
    forall j | 0 <= j < k + 1 && files[j].Some? ensures key !in files[j].value.values {
      if j > 0 {
        var n := names[j - 1];
        assert n in names && files[j] == confD[n];
        assert NameLess(n, names[k]);
      }
    }
    LookupLoaded(files, key, defaultValue, k + 1);
  }

  class Config {
    /** The loaded settings files, in load order. */
    var settings: seq<Settings>

    constructor ()
      ensures settings == []
    {
      settings := [];
    }

    /** loadConfigFile(name): a file that exists and parses is appended. */
    method LoadConfigFile(file: Option<Settings>) returns (ok: bool)
      modifies this`settings
      ensures ok <==> file.Some?
      ensures settings == old(settings) + Loaded([file])
    {
      if file.None? {
        return false;
      }
      settings := settings + [file.value];
      return true;
    }

    /**
     * loadConfig(defConfigPath, configDPath), on the configuration in place:
     * the main file and then the conf.d files are loaded in that order; the
     * result is false when any of them fails to load, and the others stay
     * loaded.
     */
    method LoadConfig(main: Option<Settings>, confD: map<string, Option<Settings>>) returns (ok: bool)
      modifies this`settings
      ensures ok <==> AllLoaded(LoadOrder(main, confD))
      ensures settings == old(settings) + Loaded(LoadOrder(main, confD))
    {
      var fileList := EntryList(confD.Keys);
      ok := true;
      var loaded := LoadConfigFile(main);
      if !loaded {
        ok := false;
      }
      var rest := Contents(confD, fileList);
      loaded := LoadConfigFiles(rest);
      if !loaded {
        ok := false;
      }
      LoadOrderSplit(old(settings), main, confD);
    }

    /** The foreach of loadConfig: each file is loaded in turn, and a failure does not stop the others. */
    method LoadConfigFiles(files: seq<Option<Settings>>) returns (ok: bool)
      modifies this`settings
      ensures ok <==> AllLoaded(files)
      ensures settings == old(settings) + Loaded(files)
    {
      ok := true;
      assert files[..0] == [];
      var i := 0;
      while i < |files|
        invariant 0 <= i <= |files|
        invariant settings == old(settings) + Loaded(files[..i])
        invariant ok <==> AllLoaded(files[..i])
      {
        var loaded := LoadConfigFile(files[i]);
        if !loaded {
          ok := false;
        }
        LoadStep(old(settings), files[..i], files[i]);
        assert files[..i + 1] == files[..i] + [files[i]];
        i := i + 1;
      }
      assert files[..i] == files;
    }

    /** value(key, defaultValue) */
    method Value(key: string, defaultValue: string) returns (r: string)
      ensures r == Lookup(settings, key, defaultValue)
    {
      var i := 0;
      while i < |settings|
        invariant 0 <= i <= |settings|
        invariant Lookup(settings, key, defaultValue) == Lookup(settings[i..], key, defaultValue)
      {
        if key in settings[i].values {
          return settings[i].values[key];
        }
        assert settings[i..][1..] == settings[i + 1..];
        i := i + 1;
      }
      return defaultValue;
    }

    /** groups() */
    method Groups() returns (groups: seq<string>)
      ensures groups == Collected(settings)
    {
      groups := [];
      var i := 0;
      while i < |settings|
        invariant 0 <= i <= |settings|
        invariant groups == Collected(settings[..i])
      {
        var children := settings[i].childGroups;
        var j := 0;
        while j < |children|
          invariant 0 <= j <= |children|
          invariant groups == AddGroups(Collected(settings[..i]), children[..j])
        {
          assert children[..j + 1][..j] == children[..j];
          if children[j] !in groups {
            groups := groups + [children[j]];
          }
          j := j + 1;
        }
        assert settings[..i + 1][..i] == settings[..i];
        assert children[..j] == children;
        i := i + 1;
      }
      assert settings[..i] == settings;
    }
  }
}
