/**
 What the texts of the configuration mean, told apart from how they are parsed: lines with
 any amount of space, arguments spelled one after the other, lists with commas.
 */
module ConfigMeaning {
  import opened Basics
  import opened ConfigSyntax

  // ----- tables -----

  /** The name of a field in the file; config_file has none. */
  predicate Named(name: Text, k: Key) {
    match k
    case ModelPath => name == "model_path"
    case ModelAlias => name == "model_alias"
    case NCtx => name == "n_ctx"
    case NGpuLayers => name == "n_gpu_layers"
    case NBatch => name == "n_batch"
    case NThreads => name == "n_threads"
    case Temperature => name == "temperature"
    case TopP => name == "top_p"
    case TopK => name == "top_k"
    case RepeatPenalty => name == "repeat_penalty"
    case MaxTokens => name == "max_tokens"
    case ListenAddr => name == "listen_addr"
    case ApiKey => name == "api_key"
    case MaxInferenceSeconds => name == "max_inference_seconds"
    case StatsInterval => name == "stats_interval"
    case Daemonize => name == "daemonize"
    case PidFile => name == "pid_file"
    case LogLevel => name == "log_level"
    case LogFile => name == "log_file"
    case ConfigFile => false
  }

  /** The options that take a value for a field. */
  predicate Opens(option: Text, k: Key) {
    match k
    case ConfigFile => option == "--config"
    case ModelPath => option == "--model"
    case ModelAlias => option == "--model-alias"
    case NCtx => option == "--n-ctx" || option == "--fing-longer"
    case NGpuLayers => option == "--n-gpu-layers"
    case NBatch => option == "--n-batch"
    case NThreads => option == "--n-threads"
    case Temperature => option == "--temperature"
    case TopP => option == "--top-p"
    case TopK => option == "--top-k"
    case RepeatPenalty => option == "--repeat-penalty"
    case MaxTokens => option == "--max-tokens"
    case ListenAddr => option == "--listen-addr"
    case ApiKey => option == "--api-key"
    case MaxInferenceSeconds => option == "--max-inference-seconds"
    case StatsInterval => option == "--stats-interval"
    case PidFile => option == "--pid-file"
    case LogLevel => option == "--log-level"
    case LogFile => option == "--log-file"
    case Daemonize => false
  }

  /** How many bytes the string fields hold, with the terminator. */
  const SIZES: map<Key, nat> :=
    map[ModelPath := 512, ModelAlias := 128, ListenAddr := 64, ApiKey := 128,
        PidFile := 512, LogFile := 512, ConfigFile := 512]

  const DEFAULTS: Fields :=
    map[ModelPath := Str(""), ModelAlias := Str("local-model"), NCtx := Number("4096"),
        NGpuLayers := Number("99"), NBatch := Number("2048"), NThreads := Number("0"),
        Temperature := Number("0.7"), TopP := Number("0.9"), TopK := Number("40"),
        RepeatPenalty := Number("1.1"), MaxTokens := Number("512"),
        ListenAddr := Str("127.0.0.1:8080"), ApiKey := Str(""),
        MaxInferenceSeconds := Number("300"), StatsInterval := Number("60"),
        Daemonize := Number("0"), PidFile := Str("/run/professord/professord.pid"),
        LogLevel := Number("2"), LogFile := Str(""), ConfigFile := Str("")]

  /** What a field keeps of a text: all of it, or what fits. */
  function Kept(k: Key, t: Text): Value {
    if k in SIZES then Str(Fitted(t, SIZES[k])) else Number(t)
  }

  lemma StoredMeans(k: Key, t: Text)
    ensures Stored(k, t) == Kept(k, t)
  {
  }

  lemma DefaultsMean()
    ensures Defaults() == DEFAULTS
  {
  }

  // ----- space -----

  /** isspace in the C locale. */
  predicate White(c: char) { c == ' ' || 9 <= c as int <= 13 }

  predicate Spaces(t: Text) { forall i :: 0 <= i < |t| ==> White(t[i]) }

  /** No space at the ends. */
  predicate Bare(t: Text) { t != "" ==> !White(t[0]) && !White(t[|t| - 1]) }

  lemma SpaceIsWhite(c: char)
    ensures IsSpace(c) <==> White(c)
  {
  }

  lemma {:induction false} LeftOff(a: Text, t: Text)
    requires Spaces(a)
    ensures TrimLeft(a + t) == TrimLeft(t)
  {
    if a == "" {
      assert a + t == t;
    } else {
      SpaceIsWhite(a[0]);
      assert (a + t)[1..] == a[1..] + t;
      LeftOff(a[1..], t);
    }
  }

  lemma {:induction false} RightOff(t: Text, b: Text)
    requires Spaces(b)
    ensures TrimRight(t + b) == TrimRight(t)
  {
    if b == "" {
      assert t + b == t;
    } else {
      var n := |b| - 1;
      SpaceIsWhite(b[n]);
      assert (t + b)[..|t| + n] == t + b[..n];
      RightOff(t, b[..n]);
    }
  }

  /** Whatever the space around it, trimming finds what is between. */
  lemma TrimFinds(a: Text, v: Text, b: Text)
    requires Spaces(a) && Spaces(b) && Bare(v)
    ensures Trimmed(a + v + b) == v
  {
    assert a + v + b == a + (v + b);
    LeftOff(a, v + b);
    if v == "" {
      assert v + b == b && b + "" == b;
      LeftOff(b, "");
    } else {
      SpaceIsWhite(v[0]);
      SpaceIsWhite(v[|v| - 1]);
      assert (v + b)[0] == v[0];
      RightOff(v, b);
    }
  }

  lemma {:induction false} LeftParts(t: Text) returns (a: Text)
    ensures t == a + TrimLeft(t) && Spaces(a) && (TrimLeft(t) != "" ==> !White(TrimLeft(t)[0]))
  {
    a := "";
    if t != "" {
      SpaceIsWhite(t[0]);
      if White(t[0]) {
        var r := LeftParts(t[1..]);
        a := [t[0]] + r;
        assert t == [t[0]] + t[1..];
      }
    }
  }

  lemma {:induction false} RightParts(t: Text) returns (b: Text)
    ensures t == TrimRight(t) + b && Spaces(b) && (TrimRight(t) != "" ==> !White(TrimRight(t)[|TrimRight(t)| - 1]))
    ensures TrimRight(t) <= t
  {
    b := "";
    if t != "" {
      var n := |t| - 1;
      SpaceIsWhite(t[n]);
      if White(t[n]) {
        var r := RightParts(t[..n]);
        b := r + [t[n]];
        assert t == t[..n] + [t[n]];
      }
    }
  }

  /** Trimming takes off space at the ends, and all of it. */
  lemma TrimParts(t: Text) returns (a: Text, b: Text)
    ensures t == a + Trimmed(t) + b && Spaces(a) && Spaces(b) && Bare(Trimmed(t))
  {
    a := LeftParts(t);
    b := RightParts(TrimLeft(t));
    assert t == a + (Trimmed(t) + b);
    if Trimmed(t) != "" {
      assert Trimmed(t)[0] == TrimLeft(t)[0];
    }
  }

  // ----- a line of the file -----

  /** The line gives this value to this name, with any amount of space around either. */
  ghost predicate Says(line: Text, name: Text, value: Text) {
    Bare(value) &&
    exists a, b, c, d ::
      Spaces(a) && Spaces(b) && Spaces(c) && Spaces(d) && line == a + name + b + "=" + c + value + d
  }

  /** A name that can stand in a line: no comment sign, no equals sign. */
  predicate Plain(name: Text) {
    name != "" && Bare(name) && '=' !in name && name[0] != '#' && name[0] != ';'
  }

  lemma FindIs(before: Text, c: char, after: Text)
    requires c !in before
    ensures Find(before + [c] + after, c) == |before|
  {
    var t := before + [c] + after;
    var i := Find(t, c);
    assert t[|before|] == c;
    assert forall m :: 0 <= m < |before| ==> t[m] == before[m] && before[m] in before;
    assert forall m :: 0 <= m < i ==> t[m] == t[..i][m] && t[..i][m] in t[..i];
  }

  /** The part of a line between the space at its ends. */
  lemma Core(name: Text, b: Text, c: Text, value: Text, a: Text, d: Text) returns (rest: Text)
    requires Spaces(a) && Spaces(b) && Spaces(c) && Spaces(d) && Plain(name) && Bare(value)
    ensures Trimmed(a + name + b + "=" + c + value + d) == name + b + "=" + rest
    ensures Trimmed(rest) == value
  {
    var line := a + name + b + "=" + c + value + d;
    var left := name + b + "=";
    if value == "" {
      rest := "";
      assert line == a + left + (c + d);
      TrimFinds(a, left, c + d);
      assert left + "" == left;
      TrimFinds("", "", "");
    } else {
      rest := c + value;
      assert line == a + (left + rest) + d;
      TrimFinds(a, left + rest, d);
      assert "" + rest == rest;
      assert c + value + "" == c + value;
      TrimFinds(c, value, "");
    }
  }

  /** The line, once trimmed, is left and right of its first equals sign. */
  lemma LineSplit(line: Text, l: Text, r: Text)
    requires Trimmed(line) == l + "=" + r && '=' !in l
    requires l != "" ==> l[0] != '#' && l[0] != ';'
    ensures LineSetting(line) == KeySetting(Trimmed(l), Trimmed(r))
  {
    var p := Trimmed(line);
    FindIs(l, '=', r);
    assert p == l + ['='] + r;
    assert p[..|l|] == l && p[|l| + 1..] == r;
    assert l != "" ==> p[0] == l[0];
  }

  /** What such a line asks for is decided by its name and value alone. */
  lemma SaidIsSet(line: Text, name: Text, value: Text)
    requires Plain(name) && Says(line, name, value)
    ensures LineSetting(line) == KeySetting(name, value)
  {
    var a, b, c, d :|
      Spaces(a) && Spaces(b) && Spaces(c) && Spaces(d) && line == a + name + b + "=" + c + value + d;
    var rest := Core(name, b, c, value, a, d);
    NameFound(name, b);
    LineSplit(line, name + b, rest);
  }

  lemma NameFound(name: Text, b: Text)
    requires Plain(name) && Spaces(b)
    ensures '=' !in name + b && Trimmed(name + b) == name && (name + b)[0] == name[0]
  {
    assert "" + name + b == name + b;
    TrimFinds("", name, b);
  }

  /** A line that asks for something has an equals sign and does not begin as a comment. */
  lemma SetIsSplit(line: Text) returns (l: Text, r: Text)
    requires LineSetting(line).Some?
    ensures Trimmed(line) == l + "=" + r && '=' !in l
    ensures LineSetting(line) == KeySetting(Trimmed(l), Trimmed(r))
  {
    var p := Trimmed(line);
    var eq := Find(p, '=');
    assert eq < |p|;
    l, r := p[..eq], p[eq + 1..];
    Apart(p, eq);
  }

  lemma Apart(p: Text, eq: nat)
    requires eq < |p| && p[eq] == '='
    ensures p == p[..eq] + "=" + p[eq + 1..]
  {
  }

  /** A line that asks for something says so. */
  lemma SetIsSaid(line: Text) returns (name: Text, value: Text)
    requires LineSetting(line).Some?
    ensures Says(line, name, value) && LineSetting(line) == KeySetting(name, value)
  {
    var l, r := SetIsSplit(line);
    var a, d := TrimParts(line);
    var a', b := TrimParts(l);
    var c, d' := TrimParts(r);
    name, value := Trimmed(l), Trimmed(r);
    Regroup(a, a', name, b, c, value, d', d);
  }

  lemma Regroup(a: Text, a': Text, name: Text, b: Text, c: Text, value: Text, d': Text, d: Text)
    requires Spaces(a) && Spaces(a') && Spaces(b) && Spaces(c) && Spaces(d') && Spaces(d) && Bare(value)
    ensures Says(a + ((a' + name + b) + "=" + (c + value + d')) + d, name, value)
  {
    var line := a + ((a' + name + b) + "=" + (c + value + d')) + d;
    var (front, back) := (a + a', d' + d);
    assert line == front + name + b + "=" + c + value + back;
    assert Spaces(front) && Spaces(back);
  }

  lemma NamesMean(name: Text, k: Key)
    ensures Named(name, k) <==> k != ConfigFile && KeyName(k) == name
  {
  }

  lemma NamesPlain(name: Text, k: Key)
    requires Named(name, k)
    ensures Plain(name) && name != "allow_ip"
  {
  }

  lemma InFile(k: Key)
    ensures k in FILE_KEYS <==> k != ConfigFile
  {
    assert FILE_KEYS[0] == ModelPath && FILE_KEYS[1] == ModelAlias && FILE_KEYS[2] == NCtx
        && FILE_KEYS[3] == NGpuLayers && FILE_KEYS[4] == NBatch && FILE_KEYS[5] == NThreads
        && FILE_KEYS[6] == Temperature && FILE_KEYS[7] == TopP && FILE_KEYS[8] == TopK
        && FILE_KEYS[9] == RepeatPenalty && FILE_KEYS[10] == MaxTokens && FILE_KEYS[11] == ListenAddr
        && FILE_KEYS[12] == ApiKey && FILE_KEYS[13] == MaxInferenceSeconds
        && FILE_KEYS[14] == StatsInterval && FILE_KEYS[15] == Daemonize && FILE_KEYS[16] == PidFile
        && FILE_KEYS[17] == LogLevel && FILE_KEYS[18] == LogFile;
  }

  lemma OptionOpens(option: Text, k: Key)
    ensures OptionKey(option) == Some(k) ==> Opens(option, k)
  {
  }

  lemma OpensOption(option: Text, k: Key)
    requires Opens(option, k)
    ensures OptionKey(option) == Some(k)
  {
  }

  lemma NamedOnce(name: Text, k: Key, k': Key)
    requires Named(name, k) && Named(name, k')
    ensures k == k'
  {
  }

  /** What a name and a value ask for. */
  lemma KeySettingMeans(name: Text, value: Text)
    ensures name == "allow_ip" ==> KeySetting(name, value) == Some(Allow(value))
    ensures forall k :: Named(name, k) ==> KeySetting(name, value) == Some(Scalar(k, Kept(k, value)))
    ensures KeySetting(name, value).Some? ==> name == "allow_ip" || exists k :: Named(name, k)
  {
    forall k | Named(name, k) ensures KeySetting(name, value) == Some(Scalar(k, Kept(k, value))) {
      NamedSets(name, k, value);
    }
    if name != "allow_ip" && KeySetting(name, value).Some? {
      var k := Lookup(FILE_KEYS, name).value;
      InFile(k);
      NamesMean(name, k);
    }
  }

  lemma NamedSets(name: Text, k: Key, value: Text)
    requires Named(name, k)
    ensures KeySetting(name, value) == Some(Scalar(k, Kept(k, value)))
  {
    NamesPlain(name, k);
    NamesMean(name, k);
    InFile(k);
    var found := Lookup(FILE_KEYS, name);
    if found.Some? {
      InFile(found.value);
      NamesMean(name, found.value);
      NamedOnce(name, k, found.value);
    }
    StoredMeans(k, value);
  }

  /** A line sets a field if and only if it gives a value to the field's name, and then to
      what the field keeps of that value; it extends the allow list if and only if it gives
      a value to allow_ip; and otherwise it does nothing. */
  lemma LineMeans(line: Text)
    ensures forall name, k, t :: Named(name, k) && Says(line, name, t) ==>
              LineSetting(line) == Some(Scalar(k, Kept(k, t)))
    ensures forall t :: Says(line, "allow_ip", t) ==> LineSetting(line) == Some(Allow(t))
    ensures LineSetting(line).Some? ==>
      exists name, t :: Says(line, name, t) && (name == "allow_ip" || exists k :: Named(name, k))
  {
    forall name, k, t | Named(name, k) && Says(line, name, t)
      ensures LineSetting(line) == Some(Scalar(k, Kept(k, t)))
    {
      NamesPlain(name, k);
      SaidIsSet(line, name, t);
      NamedSets(name, k, t);
    }
    forall t | Says(line, "allow_ip", t) ensures LineSetting(line) == Some(Allow(t)) {
      SaidIsSet(line, "allow_ip", t);
      KeySettingMeans("allow_ip", t);
    }
    if LineSetting(line).Some? {
      var name, t := SetIsSaid(line);
      KeySettingMeans(name, t);
    }
  }

  /** Blank lines, comments, and lines without an equals sign do nothing. */
  lemma LineIgnored(line: Text, a: Text, rest: Text)
    requires line == a + rest && Spaces(a)
    requires rest == "" || rest[0] == '#' || rest[0] == ';' || '=' !in line
    ensures LineSetting(line).None?
  {
    var b, d := TrimParts(line);
    var p := Trimmed(line);
    if rest != "" && (rest[0] == '#' || rest[0] == ';') {
      Begins(a, rest);
    } else if rest == "" {
      assert a + "" + "" == line;
      TrimFinds(a, "", "");
    } else {
      assert forall i :: 0 <= i < |p| ==> p[i] == line[|b| + i] && line[|b| + i] in line;
    }
  }

  lemma Begins(a: Text, rest: Text)
    requires Spaces(a) && rest != "" && !White(rest[0])
    ensures Trimmed(a + rest) != "" && Trimmed(a + rest)[0] == rest[0]
  {
    LeftOff(a, rest);
    SpaceIsWhite(rest[0]);
    var b := RightParts(rest);
    assert TrimRight(rest) == "" ==> rest == b;
  }

  // ----- the whole file -----

  /** Which value, if any, a line gives to some name. */
  type Reading = (Text, Text) -> bool

  ghost function ReadingOf(name: Text): Reading { (line, t) => Says(line, name, t) }

  ghost predicate Mute(says: Reading, line: Text) { forall t :: !says(line, t) }

  ghost predicate FileSilent(lines: seq<Text>, says: Reading) {
    lines == [] || (Mute(says, lines[|lines| - 1]) && FileSilent(lines[..|lines| - 1], says))
  }

  /** The last line that gives a value gives this one. */
  ghost predicate FileGives(lines: seq<Text>, says: Reading, t: Text) {
    lines != [] &&
    var (before, line) := (lines[..|lines| - 1], lines[|lines| - 1]);
    says(line, t) || (Mute(says, line) && FileGives(before, says, t))
  }

  /** What one more line adds. */
  lemma LineAdds(lines: seq<Text>, line: Text)
    ensures FileSettings(lines + [line])
         == FileSettings(lines) + match LineSetting(line) case Some(x) => [x] case None => []
  {
    assert (lines + [line])[..|lines|] == lines;
  }

  lemma OneAssigned(f: Fields, xs: seq<Setting>, x: Setting)
    ensures AssignAll(f, xs + [x]) == Assign(AssignAll(f, xs), x)
  {
    AssignConcat(f, xs, [x]);
    assert [x][1..] == [];
  }

  /** The reading tells what lines do to the field. */
  ghost predicate Reads(says: Reading, k: Key) {
    && (forall line, t :: says(line, t) ==> LineSetting(line) == Some(Scalar(k, Kept(k, t))))
    && (forall line :: Mute(says, line) && LineSetting(line).Some? ==>
          LineSetting(line).value.Scalar? ==> LineSetting(line).value.key != k)
  }

  lemma NameReads(name: Text, k: Key)
    requires Named(name, k)
    ensures Reads(ReadingOf(name), k)
  {
    var says := ReadingOf(name);
    NamesPlain(name, k);
    forall line, t | says(line, t) ensures LineSetting(line) == Some(Scalar(k, Kept(k, t))) {
      SaidIsSet(line, name, t);
      NamedSets(name, k, t);
    }
    forall line | Mute(says, line) && LineSetting(line).Some?
      ensures LineSetting(line).value.Scalar? ==> LineSetting(line).value.key != k
    {
      var name', t := SetIsSaid(line);
      assert !says(line, t);
      var x := KeySetting(name', t).value;
      if x.Scalar? && x.key == k {
        OtherName(name', t, name, k);
      }
    }
  }

  lemma OtherName(name': Text, t: Text, name: Text, k: Key)
    requires KeySetting(name', t).Some? && KeySetting(name', t).value.Scalar?
    requires KeySetting(name', t).value.key == k && Named(name, k)
    ensures name' == name
  {
    KeySettingMeans(name', t);
    var k' :| Named(name', k');
    assert k' == k;
  }

  /** A field ends as what it keeps of the value in the last line that gives its name one,
      and unchanged if there is no such line. */
  lemma {:induction false} FileMeans(f: Fields, lines: seq<Text>, says: Reading, k: Key)
    requires Reads(says, k) && k in f
    ensures k in AssignAll(f, FileSettings(lines))
    ensures FileSilent(lines, says) ==> AssignAll(f, FileSettings(lines))[k] == f[k]
    ensures forall t :: FileGives(lines, says, t) ==> AssignAll(f, FileSettings(lines))[k] == Kept(k, t)
  {
    if lines != [] {
      var n := |lines| - 1;
      var (before, line) := (lines[..n], lines[n]);
      assert lines == before + [line];
      FileMeans(f, before, says, k);
      LineAdds(before, line);
      if LineSetting(line).Some? {
        OneAssigned(f, FileSettings(before), LineSetting(line).value);
      } else {
        assert FileSettings(before) + [] == FileSettings(before);
      }
    }
  }

  /** Every file gives a value or is silent. */
  lemma {:induction false} GivesOrSilent(lines: seq<Text>, says: Reading) returns (t: Text)
    ensures FileSilent(lines, says) || FileGives(lines, says, t)
  {
    t := "";
    if lines != [] {
      var n := |lines| - 1;
      if Mute(says, lines[n]) {
        t := GivesOrSilent(lines[..n], says);
      } else {
        t :| says(lines[n], t);
      }
    }
  }

  /** What the file makes of one field, in terms of its lines. */
  ghost predicate FileSets(f: Fields, lines: seq<Text>, f': Fields, name: Text, k: Key)
    requires k in f
  {
    && k in f'
    && (FileSilent(lines, ReadingOf(name)) ==> f'[k] == f[k])
    && (forall t :: FileGives(lines, ReadingOf(name), t) ==> f'[k] == Kept(k, t))
  }

  lemma FileSetsAll(f: Fields, lines: seq<Text>)
    ensures forall name, k :: Named(name, k) && k in f ==>
              FileSets(f, lines, AssignAll(f, FileSettings(lines)), name, k)
  {
    forall name, k | Named(name, k) && k in f
      ensures FileSets(f, lines, AssignAll(f, FileSettings(lines)), name, k)
    {
      NameReads(name, k);
      FileMeans(f, lines, ReadingOf(name), k);
    }
  }

  // ----- the allow list -----

  /** Texts with commas between them. */
  function Joined(ps: seq<Text>): Text
    requires ps != []
  {
    if |ps| == 1 then ps[0] else ps[0] + "," + Joined(ps[1..])
  }

  /** One place of a list: an address, or nothing, with space around it. */
  datatype Place = Place(before: Text, ip: Text, after: Text)

  predicate Neat(p: Place) {
    Spaces(p.before) && Spaces(p.after) && Bare(p.ip) && ',' !in p.ip
  }

  function Written(ps: seq<Place>): (r: seq<Text>)
    ensures |r| == |ps|
  {
    seq(|ps|, i requires 0 <= i < |ps| => ps[i].before + ps[i].ip + ps[i].after)
  }

  /** The addresses of a list, cut to 63 bytes each. */
  function Addresses(ps: seq<Place>): seq<Text> {
    if ps == [] then []
    else (if ps[0].ip == "" then [] else [Fitted(ps[0].ip, 64)]) + Addresses(ps[1..])
  }

  lemma SplitFirst(p: Text, rest: Text)
    requires ',' !in p
    ensures Split(p + "," + rest) == [p] + Split(rest)
  {
    var t := p + [','] + rest;
    FindIs(p, ',', rest);
    assert t == p + "," + rest && t[..|p|] == p && t[|p| + 1..] == rest;
  }

  lemma SplitLast(p: Text)
    requires ',' !in p
    ensures Split(p) == [p]
  {
    assert Find(p, ',') == |p|;
  }

  lemma {:induction false} SplitJoined(ps: seq<Text>)
    requires ps != [] && forall i :: 0 <= i < |ps| ==> ',' !in ps[i]
    ensures Split(Joined(ps)) == ps
  {
    if |ps| == 1 {
      SplitLast(ps[0]);
      assert ps == [ps[0]];
    } else {
      assert forall i :: 0 <= i < |ps| - 1 ==> ps[1..][i] == ps[i + 1];
      SplitJoined(ps[1..]);
      SplitFirst(ps[0], Joined(ps[1..]));
      assert ps == [ps[0]] + ps[1..];
    }
  }

  lemma {:induction false} ItemsWritten(ps: seq<Place>)
    requires forall p :: p in ps ==> Neat(p)
    ensures Items(Written(ps)) == Addresses(ps)
  {
    if ps != [] {
      var w := Written(ps);
      assert ps[0] in ps;
      TrimFinds(ps[0].before, ps[0].ip, ps[0].after);
      assert w[1..] == Written(ps[1..]);
      ItemsWritten(ps[1..]);
    }
  }

  lemma NoComma(p: Place)
    requires Neat(p)
    ensures ',' !in p.before + p.ip + p.after
  {
    assert forall i :: 0 <= i < |p.before| ==> p.before[i] != ',';
    assert forall i :: 0 <= i < |p.after| ==> p.after[i] != ',';
  }

  /** The first 1023 bytes of the list are these places with commas between them. */
  ghost predicate Lists(list: Text, ps: seq<Place>) {
    ps != [] && (forall p :: p in ps ==> Neat(p)) && Fitted(list, 1024) == Joined(Written(ps))
  }

  /** A list stands for the addresses that are written in it. */
  lemma ListMeans(list: Text, ps: seq<Place>)
    requires Lists(list, ps)
    ensures ListItems(list) == Addresses(ps)
  {
    forall i | 0 <= i < |ps| ensures ',' !in Written(ps)[i] {
      assert ps[i] in ps;
      NoComma(ps[i]);
    }
    SplitJoined(Written(ps));
    ItemsWritten(ps);
  }

  /** The allow list after the allow_ip lines of a file. */
  ghost predicate FileAllows(lines: seq<Text>, says: Reading, items: seq<Text>) {
    if lines == [] then items == []
    else
      var (before, line) := (lines[..|lines| - 1], lines[|lines| - 1]);
      if Mute(says, line) then FileAllows(before, says, items)
      else exists t, rest :: says(line, t) && FileAllows(before, says, rest) && items == rest + ListItems(t)
  }

  ghost predicate ReadsAllow(says: Reading) {
    && (forall line, t :: says(line, t) ==> LineSetting(line) == Some(Allow(t)))
    && (forall line :: Mute(says, line) && LineSetting(line).Some? ==> LineSetting(line).value.Scalar?)
  }

  lemma AllowReads()
    ensures ReadsAllow(ReadingOf("allow_ip"))
  {
    var says := ReadingOf("allow_ip");
    forall line, t | says(line, t) ensures LineSetting(line) == Some(Allow(t)) {
      SaidIsSet(line, "allow_ip", t);
      KeySettingMeans("allow_ip", t);
    }
    forall line | Mute(says, line) && LineSetting(line).Some? ensures LineSetting(line).value.Scalar? {
      var name, t := SetIsSaid(line);
      assert !says(line, t);
    }
  }

  lemma {:induction false} FileAllowsAll(lines: seq<Text>, says: Reading)
    requires ReadsAllow(says)
    ensures FileAllows(lines, says, AllItems(FileSettings(lines)))
  {
    if lines != [] {
      var n := |lines| - 1;
      var (before, line) := (lines[..n], lines[n]);
      assert lines == before + [line];
      FileAllowsAll(before, says);
      AllowsLine(before, line, says);
    }
  }

  lemma AllowsLine(before: seq<Text>, line: Text, says: Reading)
    requires ReadsAllow(says) && FileAllows(before, says, AllItems(FileSettings(before)))
    ensures FileAllows(before + [line], says, AllItems(FileSettings(before + [line])))
  {
    var (lines, xs) := (before + [line], FileSettings(before));
    assert lines[..|lines| - 1] == before;
    LineAdds(before, line);
    if LineSetting(line).Some? {
      OneAllowed(xs, LineSetting(line).value);
      assert AllItems(xs) + [] == AllItems(xs);
    } else {
      assert xs + [] == xs;
    }
    if !Mute(says, line) {
      var t :| says(line, t);
      assert AllItems(FileSettings(lines)) == AllItems(xs) + ListItems(t);
    } else {
      assert AllItems(FileSettings(lines)) == AllItems(xs);
    }
  }

  /** There is no other reading of the file's allow list. */
  lemma {:induction false} FileAllowsOnce(lines: seq<Text>, says: Reading, items: seq<Text>)
    requires ReadsAllow(says) && FileAllows(lines, says, items)
    ensures items == AllItems(FileSettings(lines))
  {
    if lines != [] {
      var n := |lines| - 1;
      var (before, line) := (lines[..n], lines[n]);
      assert lines == before + [line];
      LineAdds(before, line);
      var xs := FileSettings(before);
      if Mute(says, line) {
        FileAllowsOnce(before, says, items);
        if LineSetting(line).Some? {
          OneAllowed(xs, LineSetting(line).value);
          assert AllItems(xs) + [] == AllItems(xs);
        } else {
          assert xs + [] == xs;
        }
      } else {
        var t, rest :| says(line, t) && FileAllows(before, says, rest) && items == rest + ListItems(t);
        FileAllowsOnce(before, says, rest);
        OneAllowed(xs, Allow(t));
      }
    }
  }

  lemma OneAllowed(xs: seq<Setting>, x: Setting)
    ensures AllItems(xs + [x]) == AllItems(xs) + if x.Allow? then ListItems(x.list) else []
  {
    ItemsConcat(xs, [x]);
    assert [x][1..] == [];
    if x.Allow? {
      assert ListItems(x.list) + [] == ListItems(x.list);
    }
  }

  // ----- the command line -----

  /** What one option, with its value if it takes one, is there for. */
  datatype Word =
    | Given(option: Text, key: Key, value: Text)
    | AllowIp(list: Text)
    | Daemon
    | Elsewhere(option: Text)   // handled before the options are parsed

  predicate Sound(w: Word) {
    match w
    case Given(option, key, _) => Opens(option, key)
    case Elsewhere(option) => option == "--recommend" || option == "--gen-api-key"
    case _ => true
  }

  function Spelling(w: Word): seq<Text> {
    match w
    case Given(option, _, value) => [option, value]
    case AllowIp(list) => ["--allow-ip", list]
    case Daemon => ["--daemonize"]
    case Elsewhere(option) => [option]
  }

  function Spelled(ws: seq<Word>): seq<Text> {
    if ws == [] then [] else Spelling(ws[0]) + Spelled(ws[1..])
  }

  /** What is left of the arguments when the parse ends with this status: nothing, a call
      for help, an option without its value, or an unknown option with some argument. */
  predicate Remains(rest: seq<Text>, status: Status) {
    match status
    case Fine => rest == []
    case Help => rest != [] && (rest[0] == "--help" || rest[0] == "-h")
    case Failed =>
      && rest != [] && rest[0] != "--help" && rest[0] != "-h" && rest[0] != "--daemonize"
      && rest[0] != "--recommend" && rest[0] != "--gen-api-key"
      && (|rest| == 1 || (rest[0] != "--allow-ip" && forall k :: !Opens(rest[0], k)))
  }

  /** The arguments spell these words, and what is left ends the parse like this. */
  ghost predicate Spells(args: seq<Text>, ws: seq<Word>, rest: seq<Text>, status: Status) {
    args == Spelled(ws) + rest && Remains(rest, status) && forall w :: w in ws ==> Sound(w)
  }

  function SettingOf(w: Word): seq<Setting> {
    match w
    case Given(_, key, value) => [Scalar(key, Kept(key, value))]
    case AllowIp(list) => [Allow(list)]
    case Daemon => [Scalar(Daemonize, Number("1"))]
    case Elsewhere(_) => []
  }

  function SettingsOf(ws: seq<Word>): seq<Setting> {
    if ws == [] then [] else SettingOf(ws[0]) + SettingsOf(ws[1..])
  }

  lemma OptionPlain(option: Text, k: Key)
    requires Opens(option, k)
    ensures option != "--help" && option != "-h" && option != "--recommend" && option != "--gen-api-key"
    ensures option != "--daemonize" && option != "--allow-ip"
  {
  }

  lemma RestMeans(rest: seq<Text>, status: Status)
    requires Remains(rest, status)
    ensures CliParse(rest) == Parse(status, [])
  {
    if status.Failed? && |rest| > 1 && OptionKey(rest[0]).Some? {
      OptionOpens(rest[0], OptionKey(rest[0]).value);
    }
  }

  lemma NoOption(option: Text)
    requires forall k :: !Opens(option, k)
    ensures OptionKey(option).None?
  {
    if OptionKey(option).Some? {
      OptionOpens(option, OptionKey(option).value);
    }
  }

  lemma WordMeans(w: Word, rest: seq<Text>)
    requires Sound(w)
    ensures CliParse(Spelling(w) + rest) == Parse(CliParse(rest).status, SettingOf(w) + CliParse(rest).settings)
  {
    var args := Spelling(w) + rest;
    match w
    case Given(option, key, value) =>
      OpensOption(option, key);
      OptionPlain(option, key);
      StoredMeans(key, value);
      assert args[2..] == rest;
    case AllowIp(list) =>
      assert args[0] == "--allow-ip" && args[1] == list && args[2..] == rest;
      AllowIsNone();
    case Daemon =>
      assert args[0] == "--daemonize" && args[1..] == rest;
    case Elsewhere(option) =>
      assert args[0] == option && args[1..] == rest;
      assert [] + CliParse(rest).settings == CliParse(rest).settings;
  }

  lemma AllowIsNone()
    ensures OptionKey("--allow-ip").None?
  {
  }

  /** The parse finds the words that were spelled, and how they end. */
  lemma {:induction false} WordsMean(ws: seq<Word>, rest: seq<Text>, status: Status)
    requires Remains(rest, status) && forall w :: w in ws ==> Sound(w)
    ensures CliParse(Spelled(ws) + rest) == Parse(status, SettingsOf(ws))
  {
    if ws == [] {
      assert [] + rest == rest;
      RestMeans(rest, status);
    } else {
      WordsMean(ws[1..], rest, status);
      WordMeans(ws[0], Spelled(ws[1..]) + rest);
      SpelledFront(Spelling(ws[0]), Spelled(ws[1..]), rest);
    }
  }

  lemma SpelledFront(a: seq<Text>, b: seq<Text>, c: seq<Text>)
    ensures (a + b) + c == a + (b + c)
  {
  }

  /** The first word of arguments that do not end here. */
  lemma FirstWord(args: seq<Text>) returns (ended: bool, w: Word, status: Status)
    ensures ended ==> Remains(args, status)
    ensures !ended ==> Sound(w) && |Spelling(w)| <= |args| && args[..|Spelling(w)|] == Spelling(w)
  {
    ended, w, status := true, Daemon, Fine;
    if args == [] {
      return;
    }
    var arg := args[0];
    if arg == "--help" || arg == "-h" {
      status := Help;
    } else if arg == "--recommend" || arg == "--gen-api-key" {
      ended, w := false, Elsewhere(arg);
    } else if arg == "--daemonize" {
      ended := false;
    } else if |args| == 1 {
      status := Failed;
    } else if arg == "--allow-ip" {
      ended, w := false, AllowIp(args[1]);
    } else if k :| Opens(arg, k) {
      ended, w := false, Given(arg, k, args[1]);
    } else {
      status := Failed;
    }
  }

  /** All arguments spell something. */
  lemma {:induction false} EverythingSpells(args: seq<Text>)
    returns (ws: seq<Word>, rest: seq<Text>, status: Status)
    ensures Spells(args, ws, rest, status)
    decreases |args|
  {
    var ended, w, st := FirstWord(args);
    if ended {
      ws, rest, status := [], args, st;
      assert [] + args == args;
    } else {
      var n := |Spelling(w)|;
      var ws';
      ws', rest, status := EverythingSpells(args[n..]);
      ws := [w] + ws';
      assert ws[1..] == ws';
      assert args == args[..n] + args[n..];
      assert Spelling(w) + (Spelled(ws') + rest) == (Spelling(w) + Spelled(ws')) + rest;
    }
  }

  /** The word gives the field this value. */
  predicate Puts(w: Word, k: Key, v: Value) {
    (w.Given? && w.key == k && v == Kept(k, w.value)) || (w.Daemon? && k == Daemonize && v == Number("1"))
  }

  predicate Touches(w: Word, k: Key) { (w.Given? && w.key == k) || (w.Daemon? && k == Daemonize) }

  predicate CliSilent(ws: seq<Word>, k: Key) {
    forall i :: 0 <= i < |ws| ==> !Touches(ws[i], k)
  }

  /** The last word that gives the field a value gives it this one. */
  predicate CliGives(ws: seq<Word>, k: Key, v: Value) {
    exists i :: 0 <= i < |ws| && Puts(ws[i], k, v) && CliSilent(ws[i + 1..], k)
  }

  /** What the words make of one field. */
  ghost predicate CliSets(f: Fields, ws: seq<Word>, f': Fields, k: Key)
    requires k in f
  {
    && k in f'
    && (CliSilent(ws, k) ==> f'[k] == f[k])
    && (forall v :: CliGives(ws, k, v) ==> f'[k] == v)
  }

  lemma {:induction false} CliSetsAll(f: Fields, ws: seq<Word>, k: Key)
    requires k in f
    ensures CliSets(f, ws, AssignAll(f, SettingsOf(ws)), k)
    decreases |ws|
  {
    if ws != [] {
      var f1 := AssignAll(f, SettingOf(ws[0]));
      OneWord(f, ws[0], k);
      CliSetsAll(f1, ws[1..], k);
      AssignConcat(f, SettingOf(ws[0]), SettingsOf(ws[1..]));
      FirstGives(ws, k);
    }
  }

  lemma OneWord(f: Fields, w: Word, k: Key)
    requires k in f
    ensures var f' := AssignAll(f, SettingOf(w));
            k in f' && (!Touches(w, k) ==> f'[k] == f[k]) && forall v :: Puts(w, k, v) ==> f'[k] == v
  {
    if !w.Elsewhere? {
      var x := SettingOf(w)[0];
      assert SettingOf(w) == [x] && [x][1..] == [];
      assert AssignAll(f, [x]) == Assign(f, x);
    }
  }

  lemma FirstGives(ws: seq<Word>, k: Key)
    requires ws != []
    ensures CliSilent(ws, k) <==> !Touches(ws[0], k) && CliSilent(ws[1..], k)
    ensures forall v :: CliGives(ws, k, v) ==>
              CliGives(ws[1..], k, v) || (CliSilent(ws[1..], k) && Puts(ws[0], k, v))
  {
    assert forall i :: 0 <= i < |ws| - 1 ==> ws[1..][i] == ws[i + 1];
    forall v | CliGives(ws, k, v)
      ensures CliGives(ws[1..], k, v) || (CliSilent(ws[1..], k) && Puts(ws[0], k, v))
    {
      var i :| 0 <= i < |ws| && Puts(ws[i], k, v) && CliSilent(ws[i + 1..], k);
      if i > 0 {
        assert ws[1..][i - 1] == ws[i] && ws[1..][i..] == ws[i + 1..];
      }
    }
  }

  /** The addresses that the words let in. */
  function CliAllows(ws: seq<Word>): seq<Text> {
    if ws == [] then []
    else (if ws[0].AllowIp? then ListItems(ws[0].list) else []) + CliAllows(ws[1..])
  }

  lemma {:induction false} CliAllowsAll(ws: seq<Word>)
    ensures AllItems(SettingsOf(ws)) == CliAllows(ws)
  {
    if ws != [] {
      CliAllowsAll(ws[1..]);
      ItemsConcat(SettingOf(ws[0]), SettingsOf(ws[1..]));
      if !ws[0].Elsewhere? {
        var x := SettingOf(ws[0])[0];
        assert SettingOf(ws[0]) == [] + [x];
        OneAllowed([], x);
      }
    }
  }
}
