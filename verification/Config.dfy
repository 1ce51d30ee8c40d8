/** Layered configuration: defaults, then the lines of a file, then the command line. */
module Config {
  import opened Basics
  import opened ConfigSyntax
  import opened ConfigMeaning

  /** What the lines of a file do, in terms of what they say. */
  lemma FileRead(f: Fields, acl: seq<Text>, lines: seq<Text>, f': Fields, acl': seq<Text>)
    requires After(f, acl, FileSettings(lines), f', acl')
    ensures forall name, k :: Named(name, k) && k in f ==> FileSets(f, lines, f', name, k)
    ensures forall items :: FileAllows(lines, ReadingOf("allow_ip"), items) ==> acl' == Cut16(acl + items)
  {
    FileSetsAll(f, lines);
    AllowReads();
    forall items | FileAllows(lines, ReadingOf("allow_ip"), items) ensures acl' == Cut16(acl + items) {
      FileAllowsOnce(lines, ReadingOf("allow_ip"), items);
    }
  }

  /** What the words of a command line do. */
  ghost predicate CliDone(f: Fields, acl: seq<Text>, ws: seq<Word>, f': Fields, acl': seq<Text>) {
    (forall k :: k in f ==> CliSets(f, ws, f', k)) && acl' == Cut16(acl + CliAllows(ws))
  }

  lemma CliRead(f: Fields, acl: seq<Text>, args: seq<Text>, f': Fields, acl': seq<Text>)
    requires After(f, acl, CliParse(args).settings, f', acl')
    ensures forall ws, rest, st :: Spells(args, ws, rest, st) ==>
              CliParse(args).status == st && CliDone(f, acl, ws, f', acl')
  {
    forall ws, rest, st | Spells(args, ws, rest, st)
      ensures CliParse(args).status == st && CliDone(f, acl, ws, f', acl')
    {
      WordsMean(ws, rest, st);
      CliAllowsAll(ws);
      forall k | k in f ensures CliSets(f, ws, f', k) {
        CliSetsAll(f, ws, k);
      }
    }
  }

  class Store {
    var fields: Fields
    var acl: seq<Text>

    ghost predicate Valid()
      reads this
    {
      |acl| <= ACL_MAX
    }

    /** What a list of assignments makes of the store. */
    twostate predicate Assigned(xs: seq<Setting>)
      reads this
    {
      After(old(fields), old(acl), xs, fields, acl)
    }

    /** config_defaults */
    constructor ()
      ensures Valid() && fields == Defaults() && acl == []
      ensures fields == DEFAULTS
    {
      fields, acl := Defaults(), [];
    }

    /** The comma-separated list of allow_ip and --allow-ip. */
    method AddAllowed(list: Text)
      requires Valid()
      modifies this`acl
      ensures Valid() && acl == Cut16(old(acl) + ListItems(list))
      ensures forall ps :: Lists(list, ps) ==> acl == Cut16(old(acl) + Addresses(ps))
    {
      forall ps | Lists(list, ps) ensures ListItems(list) == Addresses(ps) {
        ListMeans(list, ps);
      }
      var parts := Split(Fitted(list, ACL_COPY));
      var i := 0;
      while i < |parts| && |acl| < ACL_MAX
        invariant i <= |parts| && |acl| <= ACL_MAX
        invariant Cut16(acl + Items(parts[i..])) == Cut16(old(acl) + Items(parts))
      {
        var ip := Trimmed(parts[i]);
        assert parts[i..][1..] == parts[i + 1..];
        ghost var rest := Items(parts[i + 1..]);
        if ip != "" {
          assert acl + ([Fitted(ip, ADDR_MAX)] + rest) == (acl + [Fitted(ip, ADDR_MAX)]) + rest;
          acl := acl + [Fitted(ip, ADDR_MAX)];
        } else {
          assert [] + rest == rest;
        }
        i := i + 1;
      }
      if i == |parts| {
        assert acl + [] == acl;
      } else {
        assert (acl + Items(parts[i..]))[..ACL_MAX] == acl;
      }
    }

    /** One assignment. */
    method Apply(x: Setting)
      requires Valid()
      modifies this
      ensures Valid() && Assigned([x])
    {
      assert AssignAll(fields, [x]) == Assign(fields, x) by { assert [x][1..] == []; }
      assert AllItems([x]) == (if x.Allow? then ListItems(x.list) else []) by {
        assert [x][1..] == [];
        assert ListItems("") + [] == ListItems("");
        if x.Allow? { assert ListItems(x.list) + [] == ListItems(x.list); }
      }
      if x.Scalar? {
        assert acl + [] == acl;
        fields := fields[x.key := x.value];
      } else {
        AddAllowed(x.list);
      }
    }

    /** config_load_file: the lines as fgets returns them. */
    method LoadFile(lines: seq<Text>)
      requires Valid()
      modifies this
      ensures Valid() && Assigned(FileSettings(lines))
      ensures forall name, k :: Named(name, k) && k in old(fields) ==>
                FileSets(old(fields), lines, fields, name, k)
      ensures forall items :: FileAllows(lines, ReadingOf("allow_ip"), items) ==>
                acl == Cut16(old(acl) + items)
    {
      var i := 0;
      assert lines[..0] == [];
      AfterNothing(fields, acl);
      while i < |lines|
        invariant i <= |lines| && Valid() && Assigned(FileSettings(lines[..i]))
      {
        ghost var (sofar, f, a) := (FileSettings(lines[..i]), fields, acl);
        assert lines[..i + 1][..i] == lines[..i];
        var x := LineSetting(lines[i]);
        if x.Some? {
          Apply(x.value);
          AfterConcat(old(fields), old(acl), sofar, f, a, [x.value], fields, acl);
        } else {
          assert sofar + [] == sofar;
        }
        i := i + 1;
      }
      assert lines[..i] == lines;
      FileRead(old(fields), old(acl), lines, fields, acl);
    }

    /** config_parse_cli, on the arguments after the program name. */
    method ParseCli(args: seq<Text>) returns (status: Status)
      requires Valid()
      modifies this
      ensures Valid() && status == CliParse(args).status
      ensures Assigned(CliParse(args).settings)
      ensures forall ws, rest, st :: Spells(args, ws, rest, st) ==>
                status == st && CliDone(old(fields), old(acl), ws, fields, acl)
    {
      var i := 0;
      ghost var all := CliParse(args);
      ghost var done: seq<Setting> := [];
      assert args[0..] == args;
      Started(all);
      AfterNothing(fields, acl);
      while i < |args|
        invariant i <= |args| && Valid() && Assigned(done)
        invariant PartOf(all, done, CliParse(args[i..]))
      {
        var n, stop;
        n, stop, done := Consume(args, i, old(fields), old(acl), all, done);
        if stop.Some? {
          CliRead(old(fields), old(acl), args, fields, acl);
          return stop.value;
        }
        i := i + n;
      }
      assert args[i..] == [];
      Ended(all, done, Fine);
      CliRead(old(fields), old(acl), args, fields, acl);
      return Fine;
    }

    /** One round of the option loop, with its assignment. */
    method Consume(args: seq<Text>, i: nat, ghost f0: Fields, ghost acl0: seq<Text>,
                   ghost all: Parse, ghost done: seq<Setting>)
      returns (n: nat, stop: Option<Status>, ghost done': seq<Setting>)
      requires Valid() && i < |args|
      requires After(f0, acl0, done, fields, acl) && PartOf(all, done, CliParse(args[i..]))
      modifies this
      ensures Valid() && After(f0, acl0, done', fields, acl)
      ensures stop.Some? ==> all == Parse(stop.value, done')
      ensures stop.None? ==> 1 <= n && i + n <= |args| && PartOf(all, done', CliParse(args[i + n..]))
    {
      var x;
      n, x, stop := Next(args, i);
      done' := done;
      if stop.Some? {
        Ended(all, done, stop.value);
      } else if x.Some? {
        ghost var (f, a) := (fields, acl);
        Apply(x.value);
        Advanced(f0, acl0, all, done, f, a, x.value, CliParse(args[i + n..]), fields, acl);
        done' := done + [x.value];
      }
    }

    /** What one round does: how many arguments it uses, what it assigns, and
        whether it ends the parse. */
    static method Next(args: seq<Text>, i: nat) returns (n: nat, x: Option<Setting>, stop: Option<Status>)
      requires i < |args|
      ensures stop.Some? ==> CliParse(args[i..]) == Parse(stop.value, [])
      ensures stop.None? ==>
        && 1 <= n && i + n <= |args|
        && CliParse(args[i..]) == (if x.Some? then Before(x.value, CliParse(args[i + n..]))
                                   else CliParse(args[i + n..]))
    {
      n, x, stop := 1, None, None;
      var arg := args[i];
      ghost var rest := args[i..];
      assert rest[1..] == args[i + 1..];
      if arg == "--help" || arg == "-h" {
        return 1, None, Some(Help);
      }
      if arg == "--recommend" || arg == "--gen-api-key" {
        return;
      }
      if arg == "--daemonize" {
        return 1, Some(Scalar(Daemonize, Number("1"))), None;
      }
      if i + 1 >= |args| {
        return 1, None, Some(Failed);
      }
      assert rest[2..] == args[i + 2..];
      n := 2;
      if OptionKey(arg).Some? {
        x := Some(Scalar(OptionKey(arg).value, Stored(OptionKey(arg).value, args[i + 1])));
      } else if arg == "--allow-ip" {
        x := Some(Allow(args[i + 1]));
      } else {
        stop := Some(Failed);
      }
    }
  }

  /** The path that main looks for before anything else: what follows the first
      --config that is not the last argument. */
  function ConfigPath(args: seq<Text>): Text {
    if |args| < 2 then ""
    else if args[0] == "--config" then Fitted(args[1], 512)
    else ConfigPath(args[1..])
  }

  /** It is found exactly there. */
  lemma {:induction false} PathMeans(args: seq<Text>, i: nat)
    requires i + 1 < |args| ==> args[i] == "--config"
    requires forall j :: 0 <= j < i && j + 1 < |args| ==> args[j] != "--config"
    ensures i + 1 < |args| ==> ConfigPath(args) == Fitted(args[i + 1], 512)
    ensures i + 1 >= |args| ==> ConfigPath(args) == ""
  {
    if |args| >= 2 && i > 0 {
      assert args[0] != "--config";
      assert forall j :: 0 <= j < |args| - 1 ==> args[1..][j] == args[j + 1];
      PathMeans(args[1..], i - 1);
    }
  }

  /** The file, if one is named; None if it cannot be opened. */
  type Files = Text -> Option<seq<Text>>

  /** The lines that are read. */
  function LinesOf(path: Text, files: Files): seq<Text> {
    if path != "" && files(path).Some? then files(path).value else []
  }

  /** Where a field has its value from: the last word that gives it one, else the last line
      of the file that does, else the default; config_file is the path if no word gives it. */
  ghost predicate Sourced(path: Text, lines: seq<Text>, ws: seq<Word>, f: Fields, k: Key) {
    && k in f
    && (forall v :: CliGives(ws, k, v) ==> f[k] == v)
    && (CliSilent(ws, k) && k == ConfigFile ==> f[k] == Str(path))
    && (forall name :: CliSilent(ws, k) && Named(name, k) ==> FileSets(DEFAULTS, lines, f, name, k))
  }

  lemma Source(path: Text, lines: seq<Text>, ws: seq<Word>, f': Fields, k: Key)
    ensures var f := AssignAll(DEFAULTS[ConfigFile := Str(path)], FileSettings(lines));
            k in f && (CliSets(f, ws, f', k) ==> Sourced(path, lines, ws, f', k))
  {
    var base := DEFAULTS[ConfigFile := Str(path)];
    var f := AssignAll(base, FileSettings(lines));
    DefaultsMean();
    DefaultsTotal(k);
    LastWins(base, FileSettings(lines), k);
    NotInFile(lines);
    FileSetsAll(base, lines);
    forall name | CliSets(f, ws, f', k) && CliSilent(ws, k) && Named(name, k)
      ensures FileSets(DEFAULTS, lines, f', name, k) {
      assert FileSets(base, lines, f, name, k);
      NamesMean(name, k);
    }
  }

  /** main, up to validation: defaults, the file, the command line. It succeeds if a file
      that is named can be opened and the arguments spell words without a remainder. */
  method Configure(args: seq<Text>, files: Files) returns (c: Store, ok: bool)
    ensures fresh(c)
    ensures ok <==>
      (ConfigPath(args) != "" ==> files(ConfigPath(args)).Some?) && CliParse(args).status == Fine
    ensures forall ws, rest, st :: Spells(args, ws, rest, st) ==>
      (ok <==> (ConfigPath(args) != "" ==> files(ConfigPath(args)).Some?) && st == Fine)
    ensures forall ws :: ok && Spells(args, ws, [], Fine) ==>
      forall k :: Sourced(ConfigPath(args), LinesOf(ConfigPath(args), files), ws, c.fields, k)
    ensures forall ws, items ::
      ok && Spells(args, ws, [], Fine)
      && FileAllows(LinesOf(ConfigPath(args), files), ReadingOf("allow_ip"), items) ==>
      c.acl == Cut16(items + CliAllows(ws))
    ensures ok ==>
      var file := FileSettings(LinesOf(ConfigPath(args), files));
      var cli := CliParse(args).settings;
      && (forall k: Key ::
            k in c.fields &&
            if !Unassigned(cli, k) then LastGives(cli, k, c.fields[k])
            else if !Unassigned(file, k) then LastGives(file, k, c.fields[k])
            else if k == ConfigFile then c.fields[k] == Str(ConfigPath(args))
            else k in Defaults() && c.fields[k] == Defaults()[k])
      && c.acl == Cut16(AllItems(file) + AllItems(cli))
  {
    c := new Store();
    ok := false;
    var path := ConfigPath(args);
    c.fields := c.fields[ConfigFile := Str(path)];
    ghost var base := c.fields;
    ghost var lines := LinesOf(path, files);
    AfterNothing(base, []);
    SpelledStatus(args);
    if path != "" {
      var content := files(path);
      if content.None? {
        return;
      }
      c.LoadFile(content.value);
    }
    ghost var (f, a) := (c.fields, c.acl);
    var status := c.ParseCli(args);
    ok := status == Fine;
    Configured(path, lines, args, base, f, a, c.fields, c.acl);
  }

  lemma SpelledStatus(args: seq<Text>)
    ensures forall ws, rest, st :: Spells(args, ws, rest, st) ==> CliParse(args).status == st
  {
    forall ws, rest, st | Spells(args, ws, rest, st) ensures CliParse(args).status == st {
      WordsMean(ws, rest, st);
    }
  }

  /** What Configure achieves, once the file is read and the arguments are parsed. */
  lemma Configured(path: Text, lines: seq<Text>, args: seq<Text>, base: Fields, f: Fields, acl: seq<Text>,
                   f': Fields, acl': seq<Text>)
    requires base == DEFAULTS[ConfigFile := Str(path)]
    requires After(base, [], FileSettings(lines), f, acl)
    requires After(f, acl, CliParse(args).settings, f', acl')
    ensures forall ws :: Spells(args, ws, [], Fine) ==> forall k :: Sourced(path, lines, ws, f', k)
    ensures forall ws, items ::
      Spells(args, ws, [], Fine) && FileAllows(lines, ReadingOf("allow_ip"), items) ==>
      acl' == Cut16(items + CliAllows(ws))
    ensures Layered(path, FileSettings(lines), CliParse(args).settings, f')
    ensures acl' == Cut16(AllItems(FileSettings(lines)) + AllItems(CliParse(args).settings))
  {
    CliRead(f, acl, args, f', acl');
    forall ws, k | Spells(args, ws, [], Fine) ensures Sourced(path, lines, ws, f', k) {
      Source(path, lines, ws, f', k);
    }
    var (file, cli) := (FileSettings(lines), CliParse(args).settings);
    AfterConcat(base, [], file, f, acl, cli, f', acl');
    ItemsConcat(file, cli);
    assert [] + AllItems(file + cli) == AllItems(file) + AllItems(cli);
    AllowReads();
    forall ws, items | Spells(args, ws, [], Fine) && FileAllows(lines, ReadingOf("allow_ip"), items)
      ensures acl' == Cut16(items + CliAllows(ws))
    {
      FileAllowsOnce(lines, ReadingOf("allow_ip"), items);
      WordsMean(ws, [], Fine);
      assert Spelled(ws) + [] == Spelled(ws);
      CliAllowsAll(ws);
    }
    Layers(path, lines, base, cli, f');
  }

  /** The layers in terms of the assignments that lines and arguments ask for. */
  ghost predicate Layered(path: Text, file: seq<Setting>, cli: seq<Setting>, f: Fields) {
    forall k: Key ::
      k in f &&
      if !Unassigned(cli, k) then LastGives(cli, k, f[k])
      else if !Unassigned(file, k) then LastGives(file, k, f[k])
      else if k == ConfigFile then f[k] == Str(path)
      else k in Defaults() && f[k] == Defaults()[k]
  }

  lemma Layers(path: Text, lines: seq<Text>, base: Fields, cli: seq<Setting>, f: Fields)
    requires base == DEFAULTS[ConfigFile := Str(path)]
    requires f == AssignAll(base, FileSettings(lines) + cli)
    ensures Layered(path, FileSettings(lines), cli, f)
  {
    DefaultsMean();
    AssignConcat(base, FileSettings(lines), cli);
    forall k: Key
      ensures k in f && k in Defaults() && k in base && (k != ConfigFile ==> base[k] == Defaults()[k])
      ensures if !Unassigned(cli, k) then LastGives(cli, k, f[k])
              else if !Unassigned(FileSettings(lines), k) then LastGives(FileSettings(lines), k, f[k])
              else f[k] == base[k]
    {
      DefaultsTotal(k);
      LayersLastWins(base, FileSettings(lines), cli, k);
    }
  }

  /** The file cannot set config_file. */
  lemma {:induction false} NotInFile(lines: seq<Text>)
    ensures Unassigned(FileSettings(lines), ConfigFile)
  {
    if lines != [] {
      NotInFile(lines[..|lines| - 1]);
      var line := lines[|lines| - 1];
      if LineSetting(line).Some? && LineSetting(line).value.Scalar? {
        var p := Trimmed(line);
        var eq := Find(p, '=');
        assert LineSetting(line) == KeySetting(Trimmed(p[..eq]), Trimmed(p[eq + 1..]));
        KeyFromFile(Trimmed(p[..eq]), Trimmed(p[eq + 1..]));
      }
    }
  }

  lemma KeyFromFile(key: Text, value: Text)
    ensures KeySetting(key, value).Some? && KeySetting(key, value).value.Scalar?
            ==> KeySetting(key, value).value.key != ConfigFile
  {
    assert ConfigFile !in FILE_KEYS;
    var found := Lookup(FILE_KEYS, key);
    assert found.Some? ==> found.value in FILE_KEYS;
  }
}
