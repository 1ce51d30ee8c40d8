/**
 The syntax of the configuration: fields, the lines of a file, the command line, the
 allow list, and what a list of assignments makes of the fields. What strtol and strtof
 read from a text is not computed: a numeric field holds the text it was read from.
 */
module ConfigSyntax {
  import opened Basics

  datatype Key =
    | ModelPath | ModelAlias | NCtx | NGpuLayers | NBatch | NThreads
    | Temperature | TopP | TopK | RepeatPenalty | MaxTokens
    | ListenAddr | ApiKey | MaxInferenceSeconds | StatsInterval
    | Daemonize | PidFile | LogLevel | LogFile | ConfigFile

  datatype Value = Str(text: Text) | Number(source: Text)

  type Fields = map<Key, Value>

  /** One assignment that a line or an option asks for. */
  datatype Setting = Scalar(key: Key, value: Value) | Allow(list: Text)

  // ----- fields -----

  /** The size of a string field; numeric fields have none. */
  function FieldSize(k: Key): Option<nat> {
    match k
    case ModelPath => Some(512)
    case ModelAlias => Some(128)
    case ListenAddr => Some(64)
    case ApiKey => Some(128)
    case PidFile => Some(512)
    case LogFile => Some(512)
    case ConfigFile => Some(512)
    case _ => None
  }

  /** What assigning a text to a field stores. */
  function Stored(k: Key, text: Text): Value {
    match FieldSize(k)
    case Some(size) => if size > 0 then Str(Fitted(text, size)) else Str("")
    case None => Number(text)
  }

  function Defaults(): Fields {
    map[ModelPath := Str(""), ModelAlias := Str("local-model"), NCtx := Number("4096"),
        NGpuLayers := Number("99"), NBatch := Number("2048"), NThreads := Number("0"),
        Temperature := Number("0.7"), TopP := Number("0.9"), TopK := Number("40"),
        RepeatPenalty := Number("1.1"), MaxTokens := Number("512"),
        ListenAddr := Str("127.0.0.1:8080"), ApiKey := Str(""),
        MaxInferenceSeconds := Number("300"), StatsInterval := Number("60"),
        Daemonize := Number("0"), PidFile := Str("/run/professord/professord.pid"),
        LogLevel := Number("2"), LogFile := Str(""), ConfigFile := Str("")]
  }

  lemma DefaultsTotal(k: Key)
    ensures k in Defaults()
  {
  }

  /** The name of a field in the file; config_file has none. */
  function KeyName(k: Key): Text {
    match k
    case ModelPath => "model_path"
    case ModelAlias => "model_alias"
    case NCtx => "n_ctx"
    case NGpuLayers => "n_gpu_layers"
    case NBatch => "n_batch"
    case NThreads => "n_threads"
    case Temperature => "temperature"
    case TopP => "top_p"
    case TopK => "top_k"
    case RepeatPenalty => "repeat_penalty"
    case MaxTokens => "max_tokens"
    case ListenAddr => "listen_addr"
    case ApiKey => "api_key"
    case MaxInferenceSeconds => "max_inference_seconds"
    case StatsInterval => "stats_interval"
    case Daemonize => "daemonize"
    case PidFile => "pid_file"
    case LogLevel => "log_level"
    case LogFile => "log_file"
    case ConfigFile => ""
  }

  const FILE_KEYS: seq<Key> :=
    [ModelPath, ModelAlias, NCtx, NGpuLayers, NBatch, NThreads, Temperature, TopP, TopK,
     RepeatPenalty, MaxTokens, ListenAddr, ApiKey, MaxInferenceSeconds, StatsInterval,
     Daemonize, PidFile, LogLevel, LogFile]

  /** The first of these keys with this name. */
  function Lookup(keys: seq<Key>, name: Text): (r: Option<Key>)
    ensures r.Some? ==> r.value in keys && KeyName(r.value) == name
    ensures r.None? ==> forall k :: k in keys ==> KeyName(k) != name
  {
    if keys == [] then None
    else if KeyName(keys[0]) == name then Some(keys[0])
    else Lookup(keys[1..], name)
  }

  /** The options that take a value and set a field. */
  function OptionKey(arg: Text): Option<Key> {
    if arg == "--config" then Some(ConfigFile)
    else if arg == "--model" then Some(ModelPath)
    else if arg == "--model-alias" then Some(ModelAlias)
    else if arg == "--n-ctx" || arg == "--fing-longer" then Some(NCtx)
    else if arg == "--n-gpu-layers" then Some(NGpuLayers)
    else if arg == "--n-batch" then Some(NBatch)
    else if arg == "--n-threads" then Some(NThreads)
    else if arg == "--temperature" then Some(Temperature)
    else if arg == "--top-p" then Some(TopP)
    else if arg == "--top-k" then Some(TopK)
    else if arg == "--repeat-penalty" then Some(RepeatPenalty)
    else if arg == "--max-tokens" then Some(MaxTokens)
    else if arg == "--listen-addr" then Some(ListenAddr)
    else if arg == "--api-key" then Some(ApiKey)
    else if arg == "--max-inference-seconds" then Some(MaxInferenceSeconds)
    else if arg == "--stats-interval" then Some(StatsInterval)
    else if arg == "--pid-file" then Some(PidFile)
    else if arg == "--log-level" then Some(LogLevel)
    else if arg == "--log-file" then Some(LogFile)
    else None
  }

  // ----- texts -----

  predicate IsSpace(c: char) {
    c == ' ' || c == '\t' || c == '\n' || c == 11 as char || c == 12 as char || c == '\r'
  }

  function TrimLeft(t: Text): Text {
    if t != "" && IsSpace(t[0]) then TrimLeft(t[1..]) else t
  }

  function TrimRight(t: Text): Text {
    if t != "" && IsSpace(t[|t| - 1]) then TrimRight(t[..|t| - 1]) else t
  }

  function Trimmed(t: Text): Text { TrimRight(TrimLeft(t)) }

  /** trim, in place: `from` to `end` is the text, and a NUL follows it. Trailing space
      is overwritten, and the text that is left is returned by its bounds. */
  method Trim(buf: array<char>, from: nat, end: nat) returns (start: nat, stop: nat)
    requires from <= end < buf.Length && buf[end] == '\0'
    modifies buf
    ensures from <= start <= stop <= end && buf[stop] == '\0'
    ensures buf[start..stop] == Trimmed(old(buf[from..end]))
    ensures buf[..stop] == old(buf[..stop]) && buf[end..] == old(buf[end..])
  {
    start := from;
    while start < end && IsSpace(buf[start])
      invariant from <= start <= end
      invariant TrimLeft(buf[from..end]) == TrimLeft(buf[start..end])
    {
      assert buf[start..end][1..] == buf[start + 1..end];
      start := start + 1;
    }
    stop := end;
    if start == end {
      assert buf[start..end] == "";
      return;
    }
    ghost var text := buf[start..end];
    assert TrimLeft(text) == text;
    ghost var was := buf[..];
    while stop - 1 > start && IsSpace(buf[stop - 1])
      invariant start < stop <= end && buf[stop] == '\0'
      invariant buf[..stop] == was[..stop] && buf[end..] == was[end..]
      invariant TrimRight(text) == TrimRight(buf[start..stop])
    {
      assert buf[start..stop][..stop - start - 1] == buf[start..stop - 1];
      buf[stop - 1] := '\0';
      stop := stop - 1;
    }
    assert buf[start..stop] == TrimRight(text) by {
      assert buf[start] == was[start];
      if stop == start + 1 { assert buf[start..stop] == [was[start]]; }
    }
  }

  /** The position of the first c, or the length. */
  function Find(t: Text, c: char): (i: nat)
    ensures i <= |t| && c !in t[..i] && (i < |t| ==> t[i] == c)
  {
    if t == "" || t[0] == c then 0
    else
      var i := Find(t[1..], c) + 1;
      assert t[..i] == [t[0]] + t[1..][..i - 1];
      i
  }

  /** The assignment that a line of the file asks for, if any. */
  function LineSetting(line: Text): Option<Setting> {
    var p := Trimmed(line);
    if p == "" || p[0] == '#' || p[0] == ';' then None
    else
      var eq := Find(p, '=');
      if eq == |p| then None
      else KeySetting(Trimmed(p[..eq]), Trimmed(p[eq + 1..]))
  }

  /** The assignment for a key of the file; unknown keys are ignored. */
  function KeySetting(key: Text, value: Text): Option<Setting> {
    if key == "allow_ip" then Some(Allow(value))
    else
      match Lookup(FILE_KEYS, key)
      case Some(k) => Some(Scalar(k, Stored(k, value)))
      case None => None
  }

  function FileSettings(lines: seq<Text>): seq<Setting> {
    if lines == [] then []
    else
      FileSettings(lines[..|lines| - 1]) +
      (match LineSetting(lines[|lines| - 1])
       case Some(x) => [x]
       case None => [])
  }

  /** Does the command line end well, with an error, or with the help text? */
  datatype Status = Fine | Failed | Help

  datatype Parse = Parse(status: Status, settings: seq<Setting>)

  function Before(x: Setting, rest: Parse): Parse { Parse(rest.status, [x] + rest.settings) }

  /** What the arguments after the program name ask for, in order. */
  function CliParse(args: seq<Text>): Parse {
    if args == [] then Parse(Fine, [])
    else
      var arg := args[0];
      if arg == "--help" || arg == "-h" then Parse(Help, [])
      else if arg == "--recommend" || arg == "--gen-api-key" then CliParse(args[1..])
      else if arg == "--daemonize" then Before(Scalar(Daemonize, Number("1")), CliParse(args[1..]))
      else if |args| == 1 then Parse(Failed, [])
      else if OptionKey(arg).Some? then
        var k := OptionKey(arg).value;
        Before(Scalar(k, Stored(k, args[1])), CliParse(args[2..]))
      else if arg == "--allow-ip" then Before(Allow(args[1]), CliParse(args[2..]))
      else Parse(Failed, [])
  }

  // ----- the allow list -----

  /** PROF_ACL_MAX and the sizes of the copies made on the way. */
  const ACL_MAX: nat := 16
  const ACL_COPY: nat := 1024
  const ADDR_MAX: nat := 64

  /** The parts of a text between commas. */
  function Split(t: Text): seq<Text>
    decreases |t|
  {
    var i := Find(t, ',');
    if i == |t| then [t] else [t[..i]] + Split(t[i + 1..])
  }

  /** The items among the parts: trimmed, the empty ones left out, cut to a slot. */
  function Items(parts: seq<Text>): seq<Text> {
    if parts == [] then []
    else
      var ip := Trimmed(parts[0]);
      (if ip == "" then [] else [Fitted(ip, ADDR_MAX)]) + Items(parts[1..])
  }

  function ListItems(list: Text): seq<Text> { Items(Split(Fitted(list, ACL_COPY))) }

  function Cut16(acl: seq<Text>): (r: seq<Text>)
    ensures r <= acl && |r| == if |acl| < 16 then |acl| else 16
  {
    if |acl| <= ACL_MAX then acl else acl[..ACL_MAX]
  }

  lemma Cut16Twice(a: seq<Text>, b: seq<Text>)
    ensures Cut16(Cut16(a) + b) == Cut16(a + b)
  {
  }

  // ----- assigning -----

  function Assign(f: Fields, x: Setting): Fields {
    if x.Scalar? then f[x.key := x.value] else f
  }

  function AssignAll(f: Fields, xs: seq<Setting>): Fields
    decreases |xs|
  {
    if xs == [] then f else AssignAll(Assign(f, xs[0]), xs[1..])
  }

  function AllItems(xs: seq<Setting>): seq<Text> {
    if xs == [] then []
    else (if xs[0].Allow? then ListItems(xs[0].list) else []) + AllItems(xs[1..])
  }

  lemma {:induction false} AssignConcat(f: Fields, xs: seq<Setting>, ys: seq<Setting>)
    ensures AssignAll(f, xs + ys) == AssignAll(AssignAll(f, xs), ys)
    decreases |xs|
  {
    if xs == [] {
      assert xs + ys == ys;
    } else {
      assert (xs + ys)[1..] == xs[1..] + ys;
      AssignConcat(Assign(f, xs[0]), xs[1..], ys);
    }
  }

  lemma {:induction false} ItemsConcat(xs: seq<Setting>, ys: seq<Setting>)
    ensures AllItems(xs + ys) == AllItems(xs) + AllItems(ys)
  {
    if xs == [] {
      assert xs + ys == ys;
    } else {
      assert (xs + ys)[1..] == xs[1..] + ys;
      ItemsConcat(xs[1..], ys);
    }
  }

  /** The value is the one that the last assignment to k among xs gives. */
  ghost predicate LastGives(xs: seq<Setting>, k: Key, v: Value) {
    exists i :: 0 <= i < |xs| && xs[i] == Scalar(k, v) && Unassigned(xs[i + 1..], k)
  }

  predicate Unassigned(xs: seq<Setting>, k: Key) {
    forall i :: 0 <= i < |xs| ==> xs[i].Scalar? ==> xs[i].key != k
  }

  /** Assigning in order lets the last one win and leaves the other fields alone. */
  lemma {:induction false} LastWins(f: Fields, xs: seq<Setting>, k: Key)
    requires k in f
    ensures k in AssignAll(f, xs)
    ensures if Unassigned(xs, k) then AssignAll(f, xs)[k] == f[k]
            else LastGives(xs, k, AssignAll(f, xs)[k])
    decreases |xs|
  {
    if xs != [] {
      var rest := xs[1..];
      LastWins(Assign(f, xs[0]), rest, k);
      if Unassigned(rest, k) {
        if xs[0].Scalar? && xs[0].key == k {
          assert LastGives(xs, k, xs[0].value);
        }
      } else {
        var v := AssignAll(f, xs)[k];
        var i :| 0 <= i < |rest| && rest[i] == Scalar(k, v) && Unassigned(rest[i + 1..], k);
        assert xs[i + 1] == Scalar(k, v) && xs[i + 2..] == rest[i + 1..];
        assert LastGives(xs, k, v);
      }
    }
  }

  /** The layers: the last command line value, else the last one of the file, else
      the default. */
  lemma LayersLastWins(f: Fields, file: seq<Setting>, cli: seq<Setting>, k: Key)
    requires k in f
    ensures var r := AssignAll(AssignAll(f, file), cli);
            k in r &&
            if !Unassigned(cli, k) then LastGives(cli, k, r[k])
            else if !Unassigned(file, k) then LastGives(file, k, r[k])
            else r[k] == f[k]
  {
    LastWins(f, file, k);
    LastWins(AssignAll(f, file), cli, k);
  }

  /** f and acl are what assigning xs makes of f0 and acl0. */
  ghost predicate After(f0: Fields, acl0: seq<Text>, xs: seq<Setting>, f: Fields, acl: seq<Text>) {
    f == AssignAll(f0, xs) && acl == Cut16(acl0 + AllItems(xs))
  }

  /** A list that was cut and then extended and cut again. */
  lemma CutConcat(acl0: seq<Text>, xs: seq<Setting>, acl1: seq<Text>, ys: seq<Setting>)
    requires acl1 == Cut16(acl0 + AllItems(xs))
    ensures Cut16(acl1 + AllItems(ys)) == Cut16(acl0 + AllItems(xs + ys))
  {
    ItemsConcat(xs, ys);
    Cut16Twice(acl0 + AllItems(xs), AllItems(ys));
    assert acl0 + AllItems(xs) + AllItems(ys) == acl0 + (AllItems(xs) + AllItems(ys));
  }

  lemma AfterConcat(f0: Fields, acl0: seq<Text>, xs: seq<Setting>, f1: Fields, acl1: seq<Text>,
                    ys: seq<Setting>, f2: Fields, acl2: seq<Text>)
    requires After(f0, acl0, xs, f1, acl1) && After(f1, acl1, ys, f2, acl2)
    ensures After(f0, acl0, xs + ys, f2, acl2)
  {
    AssignConcat(f0, xs, ys);
    CutConcat(acl0, xs, acl1, ys);
  }

  lemma AfterNothing(f: Fields, acl: seq<Text>)
    requires |acl| <= ACL_MAX
    ensures After(f, acl, [], f, acl)
  {
    assert acl + [] == acl;
  }

  /** A parse is what was done and the parse of the rest. */
  ghost predicate PartOf(all: Parse, done: seq<Setting>, rest: Parse) {
    all == Parse(rest.status, done + rest.settings)
  }

  lemma Started(all: Parse)
    ensures PartOf(all, [], all)
  {
    assert [] + all.settings == all.settings;
  }

  lemma Moved(all: Parse, done: seq<Setting>, x: Setting, rest: Parse)
    requires PartOf(all, done, Before(x, rest))
    ensures PartOf(all, done + [x], rest)
  {
    assert done + ([x] + rest.settings) == (done + [x]) + rest.settings;
  }

  /** One more assignment is done. */
  lemma Advanced(f0: Fields, acl0: seq<Text>, all: Parse, done: seq<Setting>, f1: Fields, acl1: seq<Text>,
                 x: Setting, rest: Parse, f2: Fields, acl2: seq<Text>)
    requires After(f0, acl0, done, f1, acl1) && After(f1, acl1, [x], f2, acl2)
    requires PartOf(all, done, Before(x, rest))
    ensures After(f0, acl0, done + [x], f2, acl2) && PartOf(all, done + [x], rest)
  {
    AfterConcat(f0, acl0, done, f1, acl1, [x], f2, acl2);
    Moved(all, done, x, rest);
  }

  lemma Ended(all: Parse, done: seq<Setting>, status: Status)
    requires PartOf(all, done, Parse(status, []))
    ensures all == Parse(status, done)
  {
    assert done + [] == done;
  }
}
