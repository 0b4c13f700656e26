/** The command line that a node is started with. */
module StartCommand {
  import opened Options
  import opened Sets
  import opened Text

  const HTTP_PORT := 9650
  const STAKING_PORT := 9651
  const CERT_FILE := "staking-tls-cert"
  const KEY_FILE := "staking-tls-key"
  const BINARY := "/caminogo/build/caminogo"

  datatype Core = Core(
    snowSampleSize: int, snowQuorumSize: int, txFee: nat, stakingEnabled: bool, timeout: int,
    extraArgs: map<string, string>, bootstrapperIds: seq<string>, logLevel: string)

  datatype CommandResult = Command(words: seq<string>) | TooManyDependencies | MissingFile(id: string)

  /** The mounted files a node asks for. */
  function FilesToMount(core: Core): set<string> {
    if core.stakingEnabled then {CERT_FILE, KEY_FILE} else {}
  }

  // ---- The flags ----

  /** The names the program itself uses. */
  const NAMES: seq<string> := [
    "public-ip", "network-id", "http-port", "http-host", "staking-port", "log-level", "snow-sample-size",
    "snow-quorum-size", "staking-enabled", "tx-fee", "network-initial-timeout",
    "staking-tls-cert-file", "staking-tls-key-file", "bootstrap-ids", "bootstrap-ips"]

  function BaseFlags(core: Core, ip: string): seq<Flag> {
    [Flag(NAMES[0], ip), Flag(NAMES[1], "local"), Flag(NAMES[2], Itoa(HTTP_PORT)), Flag(NAMES[3], ""),
     Flag(NAMES[4], Itoa(STAKING_PORT)), Flag(NAMES[5], core.logLevel), Flag(NAMES[6], Itoa(core.snowSampleSize)),
     Flag(NAMES[7], Itoa(core.snowQuorumSize)), Flag(NAMES[8], BoolText(core.stakingEnabled)),
     Flag(NAMES[9], Itoa(core.txFee)), Flag(NAMES[10], Itoa(core.timeout))]
  }

  function StakingFlags(core: Core, files: map<string, string>): seq<Flag>
    requires FilesToMount(core) <= files.Keys
  {
    if core.stakingEnabled then
      [Flag(NAMES[11], files[CERT_FILE]), Flag(NAMES[12], files[KEY_FILE]), Flag(NAMES[13], Join(core.bootstrapperIds, ','))]
    else []
  }

  function SocketTexts(deps: seq<Socket>): (r: seq<string>)
    ensures |r| == |deps| && forall i :: 0 <= i < |deps| ==> r[i] == SocketText(deps[i])
  {
    seq(|deps|, i requires 0 <= i < |deps| => SocketText(deps[i]))
  }

  function DependencyFlags(deps: seq<Socket>): seq<Flag> {
    if deps == [] then [] else [Flag(NAMES[14], Join(SocketTexts(deps), ','))]
  }

  function ExtraFlags(args: map<string, string>, order: seq<string>): (r: seq<Flag>)
    requires forall k :: k in order ==> k in args
    ensures |r| == |order| && forall i :: 0 <= i < |order| ==> r[i] == Flag(order[i], args[order[i]])
  {
    seq(|order|, i requires 0 <= i < |order| => Flag(order[i], args[order[i]]))
  }

  function Words(flags: seq<Flag>): (r: seq<string>)
    ensures |r| == |flags| && forall i :: 0 <= i < |flags| ==> r[i] == Word(flags[i])
  {
    seq(|flags|, i requires 0 <= i < |flags| => Word(flags[i]))
  }

  /** One way of iterating over the extra arguments. */
  ghost predicate IsOrder(order: seq<string>, args: map<string, string>) {
    NoDup(order) && Elems(order) == args.Keys
  }

  /** The part of the command line the program names itself. */
  function FixedFlags(core: Core, files: map<string, string>, ip: string, deps: seq<Socket>): seq<Flag>
    requires FilesToMount(core) <= files.Keys
  {
    BaseFlags(core, ip) + StakingFlags(core, files) + DependencyFlags(deps)
  }

  function AllFlags(core: Core, files: map<string, string>, ip: string, deps: seq<Socket>, order: seq<string>): seq<Flag>
    requires FilesToMount(core) <= files.Keys && forall k :: k in order ==> k in core.extraArgs
  {
    FixedFlags(core, files, ip, deps) + ExtraFlags(core.extraArgs, order)
  }

  function CommandLine(core: Core, files: map<string, string>, ip: string, deps: seq<Socket>, order: seq<string>): seq<string>
    requires FilesToMount(core) <= files.Keys && forall k :: k in order ==> k in core.extraArgs
  {
    [BINARY] + Words(AllFlags(core, files, ip, deps, order))
  }

  /** Which of the three errors, if any, a start runs into. */
  function StartError(core: Core, files: map<string, string>, deps: seq<Socket>): Option<CommandResult> {
    if |deps| > |core.bootstrapperIds| then Some(TooManyDependencies)
    else if core.stakingEnabled && CERT_FILE !in files then Some(MissingFile(CERT_FILE))
    else if core.stakingEnabled && KEY_FILE !in files then Some(MissingFile(KEY_FILE))
    else None
  }

  method GetStartCommand(core: Core, files: map<string, string>, ip: string, deps: seq<Socket>) returns (r: CommandResult)
    ensures r.Command? <==> StartError(core, files, deps).None?
    ensures !r.Command? ==> StartError(core, files, deps) == Some(r)
    ensures r.TooManyDependencies? <==> |deps| > |core.bootstrapperIds|
    ensures r.MissingFile? <==> |deps| <= |core.bootstrapperIds| && core.stakingEnabled &&
                                ("staking-tls-cert" !in files || "staking-tls-key" !in files)
    ensures r.MissingFile? ==> r.id == if "staking-tls-cert" !in files then "staking-tls-cert" else "staking-tls-key"
    ensures r.Command? ==> |r.words| > 0 && r.words[0] == "/caminogo/build/caminogo"
    ensures r.Command? ==> forall i :: 1 <= i < |r.words| ==> "--" <= r.words[i]
    ensures r.Command? ==> FilesToMount(core) <= files.Keys && exists order ::
              && IsOrder(order, core.extraArgs)
              && (forall k :: k in order ==> k in core.extraArgs)
              && r.words == CommandLine(core, files, ip, deps, order)
  {
    if |deps| > |core.bootstrapperIds| {
      return TooManyDependencies;
    }
    var words := BaseWords(core, ip);
    if core.stakingEnabled {
      if CERT_FILE !in files {
        return MissingFile(CERT_FILE);
      }
      if KEY_FILE !in files {
        return MissingFile(KEY_FILE);
      }
    }
    assert FilesToMount(core) <= files.Keys && StartError(core, files, deps).None?;
    hide *;
    var staking := StakingWords(core, files);
    words := words + staking;
    var sockets := DependencyWords(deps);
    words := words + sockets;
    var extra := AppendExtras(core.extraArgs);
    ghost var order :| IsOrder(order, core.extraArgs) && (forall k :: k in order ==> k in core.extraArgs) &&
                       extra == Words(ExtraFlags(core.extraArgs, order));
    words := words + extra;
    CommandLineParts(core, files, ip, deps, order);
    AllAreFlags(core, files, ip, deps, order);
    return Command(words);
  }

  lemma AllAreFlags(core: Core, files: map<string, string>, ip: string, deps: seq<Socket>, order: seq<string>)
    requires FilesToMount(core) <= files.Keys && forall k :: k in order ==> k in core.extraArgs
    ensures var words := CommandLine(core, files, ip, deps, order);
            |words| > 0 && words[0] == "/caminogo/build/caminogo" && forall i :: 1 <= i < |words| ==> "--" <= words[i]
  {
    hide AllFlags;
    var words, flags := CommandLine(core, files, ip, deps, order), AllFlags(core, files, ip, deps, order);
    forall i | 1 <= i < |words| ensures "--" <= words[i] {
      assert words[i] == Word(flags[i - 1]);
    }
  }

  lemma CommandLineParts(core: Core, files: map<string, string>, ip: string, deps: seq<Socket>, order: seq<string>)
    requires FilesToMount(core) <= files.Keys && forall k :: k in order ==> k in core.extraArgs
    ensures CommandLine(core, files, ip, deps, order) ==
            [BINARY] + Words(BaseFlags(core, ip)) + Words(StakingFlags(core, files)) + Words(DependencyFlags(deps)) +
            Words(ExtraFlags(core.extraArgs, order))
  {
    hide BaseFlags, StakingFlags, DependencyFlags;
  }

  /** The mounted files and the bootstrap node IDs, when staking. */
  method StakingWords(core: Core, files: map<string, string>) returns (words: seq<string>)
    requires FilesToMount(core) <= files.Keys
    ensures words == Words(StakingFlags(core, files))
  {
    words := [];
    if core.stakingEnabled {
      words := words + [Word(Flag("staking-tls-cert-file", files[CERT_FILE]))];
      words := words + [Word(Flag("staking-tls-key-file", files[KEY_FILE]))];
      words := words + [Word(Flag("bootstrap-ids", Join(core.bootstrapperIds, ',')))];
    }
  }

  method BaseWords(core: Core, ip: string) returns (words: seq<string>)
    ensures words == [BINARY] + Words(BaseFlags(core, ip))
  {
    words := [BINARY,
      Word(Flag("public-ip", ip)),
      Word(Flag("network-id", "local")),
      Word(Flag("http-port", Itoa(HTTP_PORT))),
      Word(Flag("http-host", "")),
      Word(Flag("staking-port", Itoa(STAKING_PORT))),
      Word(Flag("log-level", core.logLevel)),
      Word(Flag("snow-sample-size", Itoa(core.snowSampleSize))),
      Word(Flag("snow-quorum-size", Itoa(core.snowQuorumSize))),
      Word(Flag("staking-enabled", BoolText(core.stakingEnabled))),
      Word(Flag("tx-fee", Itoa(core.txFee))),
      Word(Flag("network-initial-timeout", Itoa(core.timeout)))];
  }

  /** The flag with the dependencies' sockets, if there are any. */
  method DependencyWords(deps: seq<Socket>) returns (words: seq<string>)
    ensures words == Words(DependencyFlags(deps))
  {
    words := [];
    if |deps| > 0 {
      var socketStrs := [];
      for i := 0 to |deps|
        invariant socketStrs == SocketTexts(deps)[..i]
      {
        socketStrs := socketStrs + [SocketText(deps[i])];
      }
      assert socketStrs == SocketTexts(deps);
      words := words + [Word(Flag("bootstrap-ips", Join(socketStrs, ',')))];
    }
  }

  /** The extra arguments, in whatever order the map yields them. */
  method AppendExtras(args: map<string, string>) returns (words: seq<string>)
    ensures exists order :: IsOrder(order, args) && (forall k :: k in order ==> k in args) &&
                            words == Words(ExtraFlags(args, order))
  {
    hide Word;
    words := [];
    ghost var order: seq<string> := [];
    var todo := args.Keys;
    while todo != {}
      invariant todo <= args.Keys && NoDup(order)
      invariant forall k :: k in order <==> k in args && k !in todo
      invariant words == Words(ExtraFlags(args, order))
      decreases todo
    {
      var param :| param in todo;
      todo := todo - {param};
      words := words + [Word(Flag(param, args[param]))];
      order := order + [param];
    }
    assert Elems(order) == args.Keys;
  }

  // ---- Reading a command line back ----

  /** All words as flags, if they are. */
  function ParseFlags(words: seq<string>): (r: Option<seq<Flag>>)
    ensures r.Some? <==> forall i :: 0 <= i < |words| ==> ParseWord(words[i]).Some?
    ensures r.Some? ==> |r.value| == |words| && forall i :: 0 <= i < |words| ==> Some(r.value[i]) == ParseWord(words[i])
  {
    if forall i :: 0 <= i < |words| ==> ParseWord(words[i]).Some? then
      Some(seq(|words|, i requires 0 <= i < |words| => ParseWord(words[i]).value))
    else None
  }

  function Lookup(flags: seq<Flag>, name: string): Option<string> {
    if flags == [] then None
    else if flags[0].name == name then Some(flags[0].value)
    else Lookup(flags[1..], name)
  }

  function LookupInt(flags: seq<Flag>, name: string): Option<int> {
    match Lookup(flags, name)
    case None => None
    case Some(v) => Atoi(v)
  }

  predicate BuiltIn(name: string) {
    name in NAMES
  }

  /** All flags that are not the program's own. */
  function Extras(flags: seq<Flag>): map<string, string> {
    if flags == [] then map[]
    else
      var last := flags[|flags| - 1];
      var rest := Extras(flags[..|flags| - 1]);
      if BuiltIn(last.name) then rest else rest[last.name := last.value]
  }

  function ParseSockets(texts: seq<string>): (r: seq<Socket>)
    ensures |r| == |texts| && forall i :: 0 <= i < |texts| ==> r[i] == ParseSocket(texts[i])
  {
    seq(|texts|, i requires 0 <= i < |texts| => ParseSocket(texts[i]))
  }

  datatype Settings = Settings(
    ip: Option<string>, sampleSize: Option<int>, quorumSize: Option<int>, staking: Option<bool>, txFee: Option<int>,
    timeout: Option<int>, logLevel: Option<string>, certFile: Option<string>, keyFile: Option<string>,
    bootstrapIds: Option<seq<string>>, sockets: seq<Socket>, extraArgs: map<string, string>,
    networkId: Option<string>, httpHost: Option<string>, httpPort: Option<int>, stakingPort: Option<int>)

  /** What the binary makes of its arguments; other binaries, and words that are not flags, are refused. */
  function Decode(words: seq<string>): Option<Settings> {
    if words == [] || words[0] != "/caminogo/build/caminogo" then None
    else
      match ParseFlags(words[1..])
      case None => None
      case Some(flags) => Some(SettingsIn(flags))
  }

  function SettingsIn(flags: seq<Flag>): Settings {
    Settings(
      Lookup(flags, "public-ip"),
      LookupInt(flags, "snow-sample-size"),
      LookupInt(flags, "snow-quorum-size"),
      (match Lookup(flags, "staking-enabled") case None => None case Some(v) => ParseBool(v)),
      LookupInt(flags, "tx-fee"),
      LookupInt(flags, "network-initial-timeout"),
      Lookup(flags, "log-level"),
      Lookup(flags, "staking-tls-cert-file"),
      Lookup(flags, "staking-tls-key-file"),
      (match Lookup(flags, "bootstrap-ids") case None => None case Some(v) => Some(ParseList(v, ','))),
      (match Lookup(flags, "bootstrap-ips") case None => [] case Some(v) => ParseSockets(ParseList(v, ','))),
      Extras(flags),
      Lookup(flags, "network-id"),
      Lookup(flags, "http-host"),
      LookupInt(flags, "http-port"),
      LookupInt(flags, "staking-port"))
  }

  // ---- The round trip ----

  lemma NamesDistinct()
    ensures NoDup(NAMES)
  {
    assert |NAMES[0]| == |NAMES[2]| == |NAMES[3]| == |NAMES[5]| == 9;
    assert NAMES[0][7] == 'i' && NAMES[2][7] == 'r' && NAMES[3][7] == 's' && NAMES[5][7] == 'e';
    assert NAMES[6][5] == 's' && NAMES[7][5] == 'q';
    assert NAMES[13][11] == 'd' && NAMES[14][11] == 'p';
  }

  lemma NamesHaveNoEquals()
    ensures forall n :: n in NAMES ==> '=' !in n
  {
    forall i | 0 <= i < |NAMES| ensures '=' !in NAMES[i] {
      NameHasNoEquals(i);
    }
  }

  lemma NameHasNoEquals(i: nat)
    requires i < |NAMES|
    ensures '=' !in NAMES[i]
  {
  }

  ghost predicate DistinctNames(flags: seq<Flag>) {
    forall i, j :: 0 <= i < j < |flags| ==> flags[i].name != flags[j].name
  }

  lemma {:induction false} LookupAt(flags: seq<Flag>, i: nat)
    requires DistinctNames(flags) && i < |flags|
    ensures Lookup(flags, flags[i].name) == Some(flags[i].value)
  {
    if i > 0 {
      LookupAt(flags[1..], i - 1);
    }
  }

  lemma {:induction false} LookupMissing(flags: seq<Flag>, name: string)
    requires forall i :: 0 <= i < |flags| ==> flags[i].name != name
    ensures Lookup(flags, name) == None
  {
    if flags != [] {
      LookupMissing(flags[1..], name);
    }
  }

  /** The flags in words: two hyphens, the name and an equals sign. */
  lemma PrintedNames1()
    ensures "--" + NAMES[0] + "=" == "--public-ip=" && "--" + NAMES[1] + "=" == "--network-id="
    ensures "--" + NAMES[2] + "=" == "--http-port=" && "--" + NAMES[3] + "=" == "--http-host="
    ensures "--" + NAMES[4] + "=" == "--staking-port=" && "--" + NAMES[5] + "=" == "--log-level="
  {
  }

  lemma PrintedNames2()
    ensures "--" + NAMES[6] + "=" == "--snow-sample-size=" && "--" + NAMES[7] + "=" == "--snow-quorum-size="
  {
  }

  lemma PrintedNames4()
    ensures "--" + NAMES[8] + "=" == "--staking-enabled=" && "--" + NAMES[9] + "=" == "--tx-fee="
    ensures "--" + NAMES[10] + "=" == "--network-initial-timeout="
  {
  }

  lemma PrintedNames3()
    ensures "--" + NAMES[11] + "=" == "--staking-tls-cert-file=" && "--" + NAMES[12] + "=" == "--staking-tls-key-file="
  {
  }

  lemma PrintedNames5()
    ensures "--" + NAMES[13] + "=" == "--bootstrap-ids=" && "--" + NAMES[14] + "=" == "--bootstrap-ips="
  {
  }

  /** Two sockets on the command line. */
  lemma TwoSockets(a: string, b: string)
    ensures Join(SocketTexts([Socket(a, 9651), Socket(b, 9651)]), ',') == a + ":9651," + b + ":9651"
  {
    Ports();
    hide Itoa;
    var texts := SocketTexts([Socket(a, 9651), Socket(b, 9651)]);
    assert texts[0] == a + ":" + "9651" == a + ":9651";
    assert texts[1] == b + ":" + "9651" == b + ":9651";
    assert texts[1..] == [b + ":9651"];
    assert Join(texts[1..], ',') == b + ":9651";
    assert texts[0] + [','] + texts[1] == a + ":9651," + b + ":9651";
  }

  lemma Ports()
    ensures Itoa(9650) == "9650" && Itoa(9651) == "9651"
  {
  }

  /** The first words as they are printed, one by one. */
  lemma FixedWords(core: Core, files: map<string, string>, ip: string, deps: seq<Socket>, order: seq<string>)
    requires FilesToMount(core) <= files.Keys && forall k :: k in order ==> k in core.extraArgs
    ensures var words := CommandLine(core, files, ip, deps, order);
            && |words| >= 12
            && words[1] == "--public-ip=" + ip && words[2] == "--network-id=" + "local"
            && words[3] == "--http-port=" + "9650" && words[4] == "--http-host=" + ""
            && words[5] == "--staking-port=" + "9651" && words[6] == "--log-level=" + core.logLevel
            && words[7] == "--snow-sample-size=" + Itoa(core.snowSampleSize)
            && words[8] == "--snow-quorum-size=" + Itoa(core.snowQuorumSize)
            && words[9] == "--staking-enabled=" + (if core.stakingEnabled then "true" else "false")
            && words[10] == "--tx-fee=" + Itoa(core.txFee)
            && words[11] == "--network-initial-timeout=" + Itoa(core.timeout)
  {
    PrintedNames1();
    PrintedNames2();
    PrintedNames4();
    Ports();
    BaseWordsAt(core, files, ip, deps, order);
    hide CommandLine, AllFlags, Itoa;
  }

  lemma BaseWordsAt(core: Core, files: map<string, string>, ip: string, deps: seq<Socket>, order: seq<string>)
    requires FilesToMount(core) <= files.Keys && forall k :: k in order ==> k in core.extraArgs
    ensures var words := CommandLine(core, files, ip, deps, order);
            |words| >= 12 && forall i :: 1 <= i < 12 ==> words[i] == Word(BaseFlags(core, ip)[i - 1])
  {
    hide Itoa, Word, StakingFlags, DependencyFlags;
    var words, flags := CommandLine(core, files, ip, deps, order), AllFlags(core, files, ip, deps, order);
    forall i | 1 <= i < 12 ensures |words| >= 12 && words[i] == Word(BaseFlags(core, ip)[i - 1]) {
      assert flags[i - 1] == BaseFlags(core, ip)[i - 1];
    }
  }

  /** The staking files and the bootstrap IDs follow when staking. */
  lemma StakingWordsAt(core: Core, files: map<string, string>, ip: string, deps: seq<Socket>, order: seq<string>)
    requires FilesToMount(core) <= files.Keys && (forall k :: k in order ==> k in core.extraArgs) && core.stakingEnabled
    ensures "staking-tls-cert" in files && "staking-tls-key" in files
    ensures var words := CommandLine(core, files, ip, deps, order);
            && |words| >= 15
            && words[12] == "--staking-tls-cert-file=" + files["staking-tls-cert"]
            && words[13] == "--staking-tls-key-file=" + files["staking-tls-key"]
            && words[14] == "--bootstrap-ids=" + Join(core.bootstrapperIds, ',')
  {
    PrintedNames3();
    PrintedNames5();
    hide Itoa, Join, DependencyFlags;
    var words, flags := CommandLine(core, files, ip, deps, order), AllFlags(core, files, ip, deps, order);
    forall i | 12 <= i < 15 ensures |words| >= 15 && words[i] == Word(StakingFlags(core, files)[i - 12]) {
      assert flags[i - 1] == StakingFlags(core, files)[i - 12];
    }
    hide CommandLine, AllFlags, BaseFlags;
  }

  function FixedCount(core: Core, deps: seq<Socket>): nat {
    (if core.stakingEnabled then 15 else 12) + (if deps == [] then 0 else 1)
  }

  /** Then the sockets of the dependencies, if there are any. */
  lemma SocketsWord(core: Core, files: map<string, string>, ip: string, deps: seq<Socket>, order: seq<string>)
    requires FilesToMount(core) <= files.Keys && (forall k :: k in order ==> k in core.extraArgs) && deps != []
    ensures var words, n := CommandLine(core, files, ip, deps, order), FixedCount(core, deps);
            |words| >= n && words[n - 1] == "--bootstrap-ips=" + Join(SocketTexts(deps), ',')
  {
    PrintedNames5();
    FixedLength(core, files, ip, deps);
    WordsInTwo(FixedFlags(core, files, ip, deps), ExtraFlags(core.extraArgs, order));
    hide Itoa, Join, FixedFlags, Words, ExtraFlags, NAMES, SocketTexts;
  }

  /** And last the extra arguments in the given order. */
  lemma ExtraWord(core: Core, files: map<string, string>, ip: string, deps: seq<Socket>, order: seq<string>, i: nat)
    requires FilesToMount(core) <= files.Keys && (forall k :: k in order ==> k in core.extraArgs) && i < |order|
    ensures var words, n := CommandLine(core, files, ip, deps, order), FixedCount(core, deps);
            && |words| == n + |order|
            && words[n + i] == "--" + order[i] + "=" + core.extraArgs[order[i]]
  {
    hide CommandLine, FixedCount, FixedFlags, Words, NAMES;
    InTwo(core, files, ip, deps, order);
    WordsInTwo(FixedFlags(core, files, ip, deps), ExtraFlags(core.extraArgs, order));
  }

  lemma InTwo(core: Core, files: map<string, string>, ip: string, deps: seq<Socket>, order: seq<string>)
    requires FilesToMount(core) <= files.Keys && forall k :: k in order ==> k in core.extraArgs
    ensures CommandLine(core, files, ip, deps, order) ==
            [BINARY] + Words(FixedFlags(core, files, ip, deps) + ExtraFlags(core.extraArgs, order))
    ensures |FixedFlags(core, files, ip, deps)| + 1 == FixedCount(core, deps)
  {
    hide Itoa, Join, Words, NAMES;
  }

  lemma WordsInTwo(fixed: seq<Flag>, extra: seq<Flag>)
    ensures var words := [BINARY] + Words(fixed + extra);
            && |words| == 1 + |fixed| + |extra|
            && (forall i :: 0 <= i < |fixed| ==> words[1 + i] == Word(fixed[i]))
            && (forall i :: 0 <= i < |extra| ==> words[1 + |fixed| + i] == Word(extra[i]))
  {
    hide Word;
  }

  lemma FixedLength(core: Core, files: map<string, string>, ip: string, deps: seq<Socket>)
    requires FilesToMount(core) <= files.Keys
    ensures var fixed := FixedFlags(core, files, ip, deps);
            && |fixed| == (if core.stakingEnabled then 14 else 11) + (if deps == [] then 0 else 1)
            && (deps != [] ==> fixed[|fixed| - 1] == Flag(NAMES[14], Join(SocketTexts(deps), ',')))
  {
    hide Itoa, Join;
  }

  /** Where each fixed flag's name stands among the names. */
  function NameIndex(core: Core, i: nat): nat {
    if i < 11 || core.stakingEnabled then i else i + 3
  }

  lemma FixedNames(core: Core, files: map<string, string>, ip: string, deps: seq<Socket>, i: nat)
    requires FilesToMount(core) <= files.Keys && i < |FixedFlags(core, files, ip, deps)|
    ensures NameIndex(core, i) < |NAMES| && FixedFlags(core, files, ip, deps)[i].name == NAMES[NameIndex(core, i)]
  {
  }

  /** Extra arguments that leave the program's own flags alone. */
  predicate CleanExtras(args: map<string, string>) {
    forall k :: k in args ==> '=' !in k && !BuiltIn(k)
  }

  lemma FlagsDistinct(core: Core, files: map<string, string>, ip: string, deps: seq<Socket>, order: seq<string>)
    requires FilesToMount(core) <= files.Keys && IsOrder(order, core.extraArgs) && CleanExtras(core.extraArgs)
    requires forall k :: k in order ==> k in core.extraArgs
    ensures var flags := AllFlags(core, files, ip, deps, order);
            DistinctNames(flags) && ParseFlags(Words(flags)) == Some(flags)
  {
    var flags := AllFlags(core, files, ip, deps, order);
    var fixed := FixedFlags(core, files, ip, deps);
    NamesDistinct();
    NamesHaveNoEquals();
    forall i | 0 <= i < |flags|
      ensures i < |fixed| ==> NameIndex(core, i) < |NAMES| && flags[i].name == NAMES[NameIndex(core, i)]
      ensures i >= |fixed| ==> flags[i].name == order[i - |fixed|] && flags[i].name in core.extraArgs
      ensures ParseWord(Word(flags[i])) == Some(flags[i])
    {
      if i < |fixed| {
        FixedNames(core, files, ip, deps, i);
      } else {
        assert order[i - |fixed|] in Elems(order);
      }
      WordRoundTrip(flags[i]);
    }
    ParseWords(flags);
  }

  lemma ParseWords(flags: seq<Flag>)
    requires forall i :: 0 <= i < |flags| ==> ParseWord(Word(flags[i])) == Some(flags[i])
    ensures ParseFlags(Words(flags)) == Some(flags)
  {
    hide ParseWord, Word;
    var read := ParseFlags(Words(flags)).value;
    forall i | 0 <= i < |flags| ensures read[i] == flags[i] {
      assert Some(read[i]) == ParseWord(Words(flags)[i]);
    }
    assert read == flags;
  }

  lemma ExtrasSnoc(flags: seq<Flag>, f: Flag)
    ensures Extras(flags + [f]) == if BuiltIn(f.name) then Extras(flags) else Extras(flags)[f.name := f.value]
  {
    hide BuiltIn;
    assert (flags + [f])[..|flags|] == flags;
  }

  lemma {:induction false} NoExtras(fixed: seq<Flag>)
    requires forall f :: f in fixed ==> BuiltIn(f.name)
    ensures Extras(fixed) == map[]
  {
    hide BuiltIn;
    if fixed != [] {
      assert fixed[|fixed| - 1] in fixed;
      NoExtras(fixed[..|fixed| - 1]);
    }
  }

  lemma {:induction false} ExtrasOf(fixed: seq<Flag>, args: map<string, string>, order: seq<string>)
    requires forall f :: f in fixed ==> BuiltIn(f.name)
    requires forall k :: k in order ==> k in args && !BuiltIn(k)
    ensures Extras(fixed + ExtraFlags(args, order)) == map k | k in order :: args[k]
    decreases |order|
  {
    hide BuiltIn, Extras;
    if order == [] {
      assert fixed + ExtraFlags(args, order) == fixed;
      NoExtras(fixed);
    } else {
      var short, last := order[..|order| - 1], order[|order| - 1];
      assert order == short + [last];
      assert last in order;
      assert fixed + ExtraFlags(args, order) == fixed + ExtraFlags(args, short) + [Flag(last, args[last])];
      ExtrasOf(fixed, args, short);
      ExtrasSnoc(fixed + ExtraFlags(args, short), Flag(last, args[last]));
    }
  }

  /** Printed sockets read back exactly when no address contains a comma. */
  lemma SocketsRoundTripIff(deps: seq<Socket>)
    requires deps != []
    ensures ParseSockets(ParseList(Join(SocketTexts(deps), ','), ',')) == deps <==> forall d :: d in deps ==> ',' !in d.ip
  {
    var texts := SocketTexts(deps);
    if forall d :: d in deps ==> ',' !in d.ip {
      forall i | 0 <= i < |deps| ensures ',' !in texts[i] && texts[i] != "" && ParseSocket(texts[i]) == deps[i] {
        SocketTextWithout(deps[i], ',');
        SocketRoundTrip(deps[i].ip, deps[i].port);
      }
      assert texts != [""] by { assert texts[0] != ""; }
      ListRoundTripIff(texts, ',');
    }
    var pieces := ParseList(Join(texts, ','), ',');
    SplitPieces(Join(texts, ','), ',');
    forall i | 0 <= i < |pieces| ensures ',' !in ParseSockets(pieces)[i].ip {
      assert ',' !in pieces[i];
      ParsedIpWithout(pieces[i], ',');
    }
  }

  predicate CleanIds(ids: seq<string>) {
    ids != [""] && forall id :: id in ids ==> ',' !in id
  }

  predicate CleanSockets(deps: seq<Socket>) {
    forall d :: d in deps ==> ',' !in d.ip
  }

  /** The configuration that a command line is meant to carry. */
  function SettingsOf(core: Core, files: map<string, string>, ip: string, deps: seq<Socket>): Settings
    requires FilesToMount(core) <= files.Keys
  {
    Settings(
      Some(ip), Some(core.snowSampleSize), Some(core.snowQuorumSize), Some(core.stakingEnabled), Some(core.txFee),
      Some(core.timeout), Some(core.logLevel),
      if core.stakingEnabled then Some(files[CERT_FILE]) else None,
      if core.stakingEnabled then Some(files[KEY_FILE]) else None,
      if core.stakingEnabled then Some(core.bootstrapperIds) else None,
      deps, core.extraArgs,
      Some("local"), Some(""), Some(9650), Some(9651))
  }

  /**
   * Reading the printed command line recovers the whole configuration, for every order of the extra arguments,
   * exactly when the printed lists are unambiguous and the extra arguments, which the program prints unchecked, leave
   * its own flags alone.
   */
  lemma RoundTripIff(core: Core, files: map<string, string>, ip: string, deps: seq<Socket>, order: seq<string>)
    requires FilesToMount(core) <= files.Keys && IsOrder(order, core.extraArgs)
    requires forall k :: k in order ==> k in core.extraArgs
    ensures Decode(CommandLine(core, files, ip, deps, order)) == Some(SettingsOf(core, files, ip, deps)) <==>
              && (core.stakingEnabled ==> CleanIds(core.bootstrapperIds)) && CleanSockets(deps)
              && CleanExtras(core.extraArgs)
  {
    hide AllFlags, Words, Decode, CleanExtras, CleanIds, CleanSockets, IsOrder;
    var words := CommandLine(core, files, ip, deps, order);
    hide CommandLine;
    DecodedExtrasClean(words);
    if CleanExtras(core.extraArgs) {
      CleanRoundTripIff(core, files, ip, deps, order);
    }
  }

  lemma CleanRoundTripIff(core: Core, files: map<string, string>, ip: string, deps: seq<Socket>, order: seq<string>)
    requires FilesToMount(core) <= files.Keys && IsOrder(order, core.extraArgs) && CleanExtras(core.extraArgs)
    requires forall k :: k in order ==> k in core.extraArgs
    ensures Decode(CommandLine(core, files, ip, deps, order)) == Some(SettingsOf(core, files, ip, deps)) <==>
              (core.stakingEnabled ==> CleanIds(core.bootstrapperIds)) && CleanSockets(deps)
  {
    hide AllFlags, CommandLine, Decode, Lookup, Extras, Join, ParseList, FilesToMount, IsOrder, ParseSockets, CleanIds, CleanExtras;
    ReadsFlags(core, files, ip, deps, order);
    FlagsDistinct(core, files, ip, deps, order);
    BaseLookups(core, files, ip, deps, order);
    StakingLookups(core, files, ip, deps, order);
    DependencyLookup(core, files, ip, deps, order);
    ExtrasRecovered(core, files, ip, deps, order);
    assert ParseBool(BoolText(core.stakingEnabled)) == Some(core.stakingEnabled);
  }

  lemma ReadsFlags(core: Core, files: map<string, string>, ip: string, deps: seq<Socket>, order: seq<string>)
    requires FilesToMount(core) <= files.Keys && IsOrder(order, core.extraArgs) && CleanExtras(core.extraArgs)
    requires forall k :: k in order ==> k in core.extraArgs
    ensures Decode(CommandLine(core, files, ip, deps, order)) == Some(SettingsIn(AllFlags(core, files, ip, deps, order)))
  {
    FlagsDistinct(core, files, ip, deps, order);
    hide AllFlags, SettingsIn, ParseFlags, Words, IsOrder;
    assert CommandLine(core, files, ip, deps, order)[1..] == Words(AllFlags(core, files, ip, deps, order));
  }

  // ---- Extra arguments that do not come back ----

  lemma {:induction false} CutName(w: string)
    ensures '=' !in CutAtEquals(w).name
  {
    if w != "" && w[0] != '=' {
      CutName(w[1..]);
    }
  }

  lemma {:induction false} ExtrasClean(flags: seq<Flag>)
    requires forall i :: 0 <= i < |flags| ==> '=' !in flags[i].name
    ensures CleanExtras(Extras(flags))
  {
    hide BuiltIn;
    if flags != [] {
      ExtrasClean(flags[..|flags| - 1]);
    }
  }

  /** Whatever the command line, the extra arguments read from it leave the program's own flags alone. */
  lemma DecodedExtrasClean(words: seq<string>)
    ensures Decode(words).Some? ==> CleanExtras(Decode(words).value.extraArgs)
  {
    hide Extras, CleanExtras, CutAtEquals, Lookup, LookupInt;
    if Decode(words).Some? {
      var flags := ParseFlags(words[1..]).value;
      forall i | 0 <= i < |flags| ensures '=' !in flags[i].name {
        CutName(words[1..][i][2..]);
      }
      ExtrasClean(flags);
    }
  }

  lemma BaseLookups(core: Core, files: map<string, string>, ip: string, deps: seq<Socket>, order: seq<string>)
    requires FilesToMount(core) <= files.Keys && (forall k :: k in order ==> k in core.extraArgs)
    requires DistinctNames(AllFlags(core, files, ip, deps, order))
    ensures var flags := AllFlags(core, files, ip, deps, order);
            && Lookup(flags, "public-ip") == Some(ip)
            && LookupInt(flags, "snow-sample-size") == Some(core.snowSampleSize)
            && LookupInt(flags, "snow-quorum-size") == Some(core.snowQuorumSize)
            && Lookup(flags, "staking-enabled") == Some(BoolText(core.stakingEnabled))
            && LookupInt(flags, "tx-fee") == Some(core.txFee)
            && LookupInt(flags, "network-initial-timeout") == Some(core.timeout)
            && Lookup(flags, "log-level") == Some(core.logLevel)
            && Lookup(flags, "network-id") == Some("local")
            && Lookup(flags, "http-host") == Some("")
            && LookupInt(flags, "http-port") == Some(9650)
            && LookupInt(flags, "staking-port") == Some(9651)
  {
    var flags := AllFlags(core, files, ip, deps, order);
    forall i | 0 <= i < 11 ensures Lookup(flags, NAMES[i]) == Some(BaseFlags(core, ip)[i].value) {
      assert flags[i] == BaseFlags(core, ip)[i];
      assert flags[i].name == NAMES[i];
      LookupAt(flags, i);
    }
    AtoiItoa(core.snowSampleSize);
    AtoiItoa(core.snowQuorumSize);
    AtoiItoa(core.txFee);
    AtoiItoa(core.timeout);
    AtoiItoa(HTTP_PORT);
    AtoiItoa(STAKING_PORT);
    hide Lookup, AllFlags, Itoa, Atoi, BoolText;
    assert Lookup(flags, NAMES[0]) == Some(ip);
    assert Lookup(flags, NAMES[1]) == Some("local");
    assert Lookup(flags, NAMES[2]) == Some(Itoa(HTTP_PORT));
    assert Lookup(flags, NAMES[3]) == Some("");
    assert Lookup(flags, NAMES[4]) == Some(Itoa(STAKING_PORT));
    assert Lookup(flags, NAMES[5]) == Some(core.logLevel);
    assert Lookup(flags, NAMES[6]) == Some(Itoa(core.snowSampleSize));
    assert Lookup(flags, NAMES[7]) == Some(Itoa(core.snowQuorumSize));
    assert Lookup(flags, NAMES[8]) == Some(BoolText(core.stakingEnabled));
    assert Lookup(flags, NAMES[9]) == Some(Itoa(core.txFee));
    assert Lookup(flags, NAMES[10]) == Some(Itoa(core.timeout));
  }

  /** A name of the program that no fixed flag uses is not on the command line at all. */
  lemma AbsentName(core: Core, files: map<string, string>, ip: string, deps: seq<Socket>, order: seq<string>, n: nat)
    requires FilesToMount(core) <= files.Keys && CleanExtras(core.extraArgs)
    requires forall k :: k in order ==> k in core.extraArgs
    requires n < |NAMES| && forall i :: 0 <= i < |FixedFlags(core, files, ip, deps)| ==> NameIndex(core, i) != n
    ensures Lookup(AllFlags(core, files, ip, deps, order), NAMES[n]) == None
  {
    var flags := AllFlags(core, files, ip, deps, order);
    var fixed := FixedFlags(core, files, ip, deps);
    NamesDistinct();
    forall i | 0 <= i < |flags| ensures flags[i].name != NAMES[n] {
      if i < |fixed| {
        assert flags[i] == fixed[i];
        FixedNames(core, files, ip, deps, i);
      } else {
        assert flags[i].name == order[i - |fixed|];
        assert NAMES[n] in NAMES;
      }
    }
    LookupMissing(flags, NAMES[n]);
  }

  lemma StakingLookups(core: Core, files: map<string, string>, ip: string, deps: seq<Socket>, order: seq<string>)
    requires FilesToMount(core) <= files.Keys && (forall k :: k in order ==> k in core.extraArgs)
    requires DistinctNames(AllFlags(core, files, ip, deps, order)) && CleanExtras(core.extraArgs)
    ensures var flags := AllFlags(core, files, ip, deps, order);
            && Lookup(flags, NAMES[11]) == (if core.stakingEnabled then Some(files[CERT_FILE]) else None)
            && Lookup(flags, NAMES[12]) == (if core.stakingEnabled then Some(files[KEY_FILE]) else None)
            && Lookup(flags, NAMES[13]) == (if core.stakingEnabled then Some(Join(core.bootstrapperIds, ',')) else None)
            && (ParseList(Join(core.bootstrapperIds, ','), ',') == core.bootstrapperIds <==> CleanIds(core.bootstrapperIds))
  {
    var flags := AllFlags(core, files, ip, deps, order);
    ListRoundTripIff(core.bootstrapperIds, ',');
    if core.stakingEnabled {
      forall i | 11 <= i < 14 ensures Lookup(flags, NAMES[i]) == Some(StakingFlags(core, files)[i - 11].value) {
        assert flags[i] == StakingFlags(core, files)[i - 11];
        LookupAt(flags, i);
      }
    } else {
      forall i | 11 <= i < 14 ensures Lookup(flags, NAMES[i]) == None {
        AbsentName(core, files, ip, deps, order, i);
      }
    }
  }

  lemma DependencyLookup(core: Core, files: map<string, string>, ip: string, deps: seq<Socket>, order: seq<string>)
    requires FilesToMount(core) <= files.Keys && (forall k :: k in order ==> k in core.extraArgs)
    requires DistinctNames(AllFlags(core, files, ip, deps, order)) && CleanExtras(core.extraArgs)
    ensures var flags := AllFlags(core, files, ip, deps, order);
            && Lookup(flags, NAMES[14]) == (if deps == [] then None else Some(Join(SocketTexts(deps), ',')))
            && (deps != [] ==> (ParseSockets(ParseList(Join(SocketTexts(deps), ','), ',')) == deps <==> CleanSockets(deps)))
  {
    var flags := AllFlags(core, files, ip, deps, order);
    if deps == [] {
      AbsentName(core, files, ip, deps, order, 14);
    } else {
      var i := |FixedFlags(core, files, ip, deps)| - 1;
      assert flags[i] == Flag(NAMES[14], Join(SocketTexts(deps), ','));
      LookupAt(flags, i);
      SocketsRoundTripIff(deps);
    }
  }

  lemma ExtrasRecovered(core: Core, files: map<string, string>, ip: string, deps: seq<Socket>, order: seq<string>)
    requires FilesToMount(core) <= files.Keys && IsOrder(order, core.extraArgs) && CleanExtras(core.extraArgs)
    requires forall k :: k in order ==> k in core.extraArgs
    ensures Extras(AllFlags(core, files, ip, deps, order)) == core.extraArgs
  {
    FixedAreBuiltIn(core, files, ip, deps);
    OrderCovers(core.extraArgs, order);
    hide BuiltIn, FixedFlags, Extras, IsOrder;
    ExtrasOf(FixedFlags(core, files, ip, deps), core.extraArgs, order);
  }

  lemma OrderCovers(args: map<string, string>, order: seq<string>)
    requires IsOrder(order, args)
    ensures forall k :: k in order <==> k in args
    ensures (map k | k in order :: args[k]) == args
  {
    assert forall k :: k in order <==> k in Elems(order);
  }

  lemma FixedAreBuiltIn(core: Core, files: map<string, string>, ip: string, deps: seq<Socket>)
    requires FilesToMount(core) <= files.Keys
    ensures forall f :: f in FixedFlags(core, files, ip, deps) ==> BuiltIn(f.name)
  {
    var fixed := FixedFlags(core, files, ip, deps);
    forall i | 0 <= i < |fixed| ensures BuiltIn(fixed[i].name) {
      FixedNames(core, files, ip, deps, i);
    }
  }
}
