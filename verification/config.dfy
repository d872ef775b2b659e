/** The provider's INI-style configuration: the line parser of `readConfig`
    and the checks of `validateConfig` (config.go). */
module Config {
  import opened Common
  import opened Text

  datatype VCloudConfig = VCloudConfig(
    clusterID: string,
    clusterName: string,
    mgmtURL: string,
    providerToken: string)

  /** What the line scanner delivered: the lines it read before it stopped,
      and whether it stopped on an error (an I/O error, or a line longer than
      the scanner's token limit) rather than at the end of input. */
  datatype ScanResult = ScanResult(lines: seq<string>, failed: bool)

  /** The parser's state between two lines. */
  datatype ParserState = ParserState(cfg: VCloudConfig, inVCloudSection: bool)

  const EmptyConfig := VCloudConfig("", "", "", "")
  const Start := ParserState(EmptyConfig, false)

  /** The four recognised keys, in the order `validateConfig` checks them. */
  const RequiredKeys: seq<string> := ["CLUSTER_ID", "CLUSTER_NAME", "MGMT_URL", "PROVIDER_TOKEN"]

  /** The configuration field a recognised key names. */
  function Field(cfg: VCloudConfig, key: string): string
    requires key in RequiredKeys
  {
    if key == "CLUSTER_ID" then cfg.clusterID
    else if key == "CLUSTER_NAME" then cfg.clusterName
    else if key == "MGMT_URL" then cfg.mgmtURL
    else cfg.providerToken
  }

  /** The `switch key` of the parser: a recognised key overwrites its field,
      any other key leaves the configuration alone. */
  function Assign(cfg: VCloudConfig, key: string, value: string): (r: VCloudConfig)
    ensures key !in RequiredKeys ==> r == cfg
    ensures forall k :: k in RequiredKeys ==> Field(r, k) == if k == key then value else Field(cfg, k)
  {
    if key == "CLUSTER_ID" then cfg.(clusterID := value)
    else if key == "CLUSTER_NAME" then cfg.(clusterName := value)
    else if key == "MGMT_URL" then cfg.(mgmtURL := value)
    else if key == "PROVIDER_TOKEN" then cfg.(providerToken := value)
    else cfg
  }

  // ---------------------------------------------------------------------------
  // One line of the file
  // ---------------------------------------------------------------------------

  /** Blank lines and `#` / `;` comments (of a trimmed line). */
  predicate IsSkipped(t: string) {
    t == "" || HasPrefix(t, "#") || HasPrefix(t, ";")
  }

  /** strings.EqualFold(name, "vCloud"). ASCII case folding is exact here: none
      of the letters of "vCloud" has a case-fold partner outside ASCII. */
  predicate IsVCloudSection(name: string) {
    EqualFoldAscii(name, "vCloud")
  }

  /** What a line is to the parser, decided in the order the loop body tests it. */
  datatype LineKind =
    | Skip                                  // blank or comment
    | Header(vCloud: bool)                  // `[name]`, and whether name is vCloud
    | Assignment(key: string, value: string) // `key = value`, split at the first `=`
    | Plain                                 // anything else: ignored

  function Classify(raw: string): LineKind
  {
    var t := TrimSpace(raw);
    if IsSkipped(t) then Skip
    else if HasPrefix(t, "[") && HasSuffix(t, "]") then Header(IsVCloudSection(TrimSpace(t[1..|t| - 1])))
    else match Index(t, "=")
      case None => Plain
      case Some(i) => Assignment(TrimSpace(t[..i]), TrimSpace(t[i + 1..]))
  }

  /** The effect of one classified line on the parser state. */
  function Apply(st: ParserState, kind: LineKind): ParserState
  {
    match kind
    case Skip => st
    case Plain => st
    case Header(v) => st.(inVCloudSection := v)
    case Assignment(key, value) =>
      if st.inVCloudSection then st.(cfg := Assign(st.cfg, key, value)) else st
  }

  /** One iteration of the scanner loop. */
  function Step(st: ParserState, raw: string): ParserState
  {
    Apply(st, Classify(raw))
  }

  /** The classification of each line, in order. */
  function Kinds(lines: seq<string>): (kinds: seq<LineKind>)
    ensures |kinds| == |lines|
    decreases |lines|
  {
    if |lines| == 0 then [] else Kinds(lines[..|lines| - 1]) + [Classify(lines[|lines| - 1])]
  }

  /** The parser state after lines of the given kinds, applied from the left. */
  function Fold(kinds: seq<LineKind>): ParserState
    decreases |kinds|
  {
    if |kinds| == 0 then Start else Apply(Fold(kinds[..|kinds| - 1]), kinds[|kinds| - 1])
  }

  /** The parser state after the given lines. */
  function Parse(lines: seq<string>): ParserState
  {
    Fold(Kinds(lines))
  }

  /** readConfig: None stands for a nil reader. */
  function ReadConfig(input: Option<ScanResult>): (r: Result<VCloudConfig>)
    ensures input.None? <==> r == Err(NoConfig)
    ensures input.Some? && input.value.failed ==> r == Err(ReadFailed)
    ensures input.Some? && !input.value.failed ==> r.Ok?
  {
    match input
    case None => Err(NoConfig)
    case Some(scan) => if scan.failed then Err(ReadFailed) else Ok(Parse(scan.lines).cfg)
  }

  // ---------------------------------------------------------------------------
  // Line-level facts about the parser
  // ---------------------------------------------------------------------------

  lemma ParseSnoc(lines: seq<string>, line: string)
    ensures Parse(lines + [line]) == Step(Parse(lines), line)
  {
    assert (lines + [line])[..|lines|] == lines;
    var ks := Kinds(lines + [line]);
    assert ks == Kinds(lines) + [Classify(line)];
    assert ks[..|ks| - 1] == Kinds(lines);
  }

  /** Blank and comment lines do not change the parser state. */
  lemma SkippedLineIsNoOp(st: ParserState, raw: string)
    requires IsSkipped(TrimSpace(raw))
    ensures Step(st, raw) == st
  {
  }

  /** A `[name]` header decides the section from its trimmed name alone,
      whatever came before, and is recognised before any `=` is looked for. */
  lemma HeaderSetsSection(st: ParserState, raw: string, name: string)
    requires TrimSpace(raw) == "[" + name + "]"
    ensures Step(st, raw).cfg == st.cfg
    ensures Step(st, raw).inVCloudSection <==> EqualFoldAscii(TrimSpace(name), "vCloud")
  {
    var t := TrimSpace(raw);
    assert t[0] == '[' && t[|t| - 1] == ']';
    assert t[1..|t| - 1] == name;
  }

  /** Outside the vCloud section no line changes the configuration. */
  lemma OutsideSectionKeepsConfig(st: ParserState, raw: string)
    requires !st.inVCloudSection
    ensures Step(st, raw).cfg == st.cfg
  {
  }

  /** Inside the section a line `k = v` (after trimming) whose trimmed `k` is a
      recognised key sets that key to the trimmed `v`, which may itself contain
      `=`, and leaves the other keys alone. */
  lemma AssignmentLine(st: ParserState, raw: string, k: string, v: string)
    requires st.inVCloudSection
    requires TrimSpace(raw) == k + "=" + v
    requires !Contains(k, "=") && TrimSpace(k) in RequiredKeys
    ensures var s := Step(st, raw);
      && s.inVCloudSection
      && Field(s.cfg, TrimSpace(k)) == TrimSpace(v)
      && forall key :: key in RequiredKeys && key != TrimSpace(k) ==> Field(s.cfg, key) == Field(st.cfg, key)
  {
    var t := TrimSpace(raw);
    var key := TrimSpace(k);
    TrimSpaceShape(k);
    var i := |k| - |TrimLeft(k)|;
    assert |key| > 0;
    assert t[0] == k[0];
    assert !IsSpace(k[0]);
    assert TrimLeft(k) == k;
    assert k[0] == key[0];
    assert key[0] == 'C' || key[0] == 'M' || key[0] == 'P';
    assert !IsSkipped(t);
    assert !HasPrefix(t, "[");
    IndexAfterFreePrefix(k, "=", v);
    assert t[..|k|] == k;
    assert t[|k| + 1..] == v;
  }

  // ---------------------------------------------------------------------------
  // Declarative reading of a configuration file
  // ---------------------------------------------------------------------------

  predicate HeaderAt(kinds: seq<LineKind>, j: int) {
    0 <= j < |kinds| && kinds[j].Header?
  }

  predicate OpensVCloud(kinds: seq<LineKind>, h: int) {
    HeaderAt(kinds, h) && kinds[h].vCloud
  }

  predicate NoHeaderBetween(kinds: seq<LineKind>, h: int, n: int) {
    forall j :: h < j < n ==> !HeaderAt(kinds, j)
  }

  /** Line `n` lies in the vCloud section: the last header before it names vCloud. */
  ghost predicate InSectionAt(kinds: seq<LineKind>, n: int) {
    exists h :: 0 <= h < n && OpensVCloud(kinds, h) && NoHeaderBetween(kinds, h, n)
  }

  /** Line `i` assigns `key` inside the vCloud section. */
  ghost predicate AssignsAt(kinds: seq<LineKind>, i: int, key: string) {
    0 <= i < |kinds| && InSectionAt(kinds, i) && kinds[i].Assignment? && kinds[i].key == key
  }

  /** Among the first `n` lines, line `i` is the last to assign `key`. */
  ghost predicate LastAssignment(kinds: seq<LineKind>, n: int, key: string, i: int) {
    0 <= i < n && AssignsAt(kinds, i, key) && forall j :: i < j < n ==> !AssignsAt(kinds, j, key)
  }

  /** `v` is the value of the last assignment to `key` among the first `n` lines,
      or "" when there is none. */
  ghost predicate LastValue(kinds: seq<LineKind>, n: int, key: string, v: string) {
    || (exists i :: LastAssignment(kinds, n, key, i) && v == kinds[i].value)
    || (v == "" && forall i :: 0 <= i < n ==> !AssignsAt(kinds, i, key))
  }

  lemma InSectionStep(kinds: seq<LineKind>, n: int)
    requires 0 <= n < |kinds|
    ensures InSectionAt(kinds, n + 1) <==>
      if HeaderAt(kinds, n) then OpensVCloud(kinds, n) else InSectionAt(kinds, n)
  {
    if HeaderAt(kinds, n) {
      assert OpensVCloud(kinds, n) ==> NoHeaderBetween(kinds, n, n + 1);
      if InSectionAt(kinds, n + 1) {
        var h :| 0 <= h < n + 1 && OpensVCloud(kinds, h) && NoHeaderBetween(kinds, h, n + 1);
        assert h < n ==> !HeaderAt(kinds, n);
      }
    } else {
      if InSectionAt(kinds, n + 1) {
        var h :| 0 <= h < n + 1 && OpensVCloud(kinds, h) && NoHeaderBetween(kinds, h, n + 1);
        assert NoHeaderBetween(kinds, h, n);
      }
      if InSectionAt(kinds, n) {
        var h :| 0 <= h < n && OpensVCloud(kinds, h) && NoHeaderBetween(kinds, h, n);
        assert NoHeaderBetween(kinds, h, n + 1);
      }
    }
  }

  lemma LastValueStep(kinds: seq<LineKind>, n: int, key: string, v: string)
    requires 0 <= n < |kinds|
    requires LastValue(kinds, n, key, v)
    ensures LastValue(kinds, n + 1, key, if AssignsAt(kinds, n, key) then kinds[n].value else v)
  {
    if AssignsAt(kinds, n, key) {
      assert LastAssignment(kinds, n + 1, key, n);
    } else if exists i :: LastAssignment(kinds, n, key, i) && v == kinds[i].value {
      var i :| LastAssignment(kinds, n, key, i) && v == kinds[i].value;
      assert LastAssignment(kinds, n + 1, key, i);
    } else {
      assert forall i :: 0 <= i < n + 1 ==> !AssignsAt(kinds, i, key);
    }
  }

  /** The parser's state after `n` lines agrees with the declarative reading:
      it is in the section exactly when the last header was vCloud, and each
      key holds the value of its last in-section assignment (last value wins). */
  lemma {:induction false} FoldAgreesWithLastValue(kinds: seq<LineKind>, n: int)
    requires 0 <= n <= |kinds|
    ensures Fold(kinds[..n]).inVCloudSection <==> InSectionAt(kinds, n)
    ensures forall k :: k in RequiredKeys ==> LastValue(kinds, n, k, Field(Fold(kinds[..n]).cfg, k))
  {
    if n > 0 {
      var m := n - 1;
      FoldAgreesWithLastValue(kinds, m);
      assert kinds[..n][..m] == kinds[..m];
      var st := Fold(kinds[..m]);
      var st' := Fold(kinds[..n]);
      assert st' == Apply(st, kinds[m]);
      InSectionStep(kinds, m);
      forall k | k in RequiredKeys
        ensures LastValue(kinds, n, k, Field(st'.cfg, k))
      {
        LastValueStep(kinds, m, k, Field(st.cfg, k));
        assert Field(st'.cfg, k) == if AssignsAt(kinds, m, k) then kinds[m].value else Field(st.cfg, k);
      }
    } else {
      assert forall k :: k in RequiredKeys ==> Field(EmptyConfig, k) == "";
    }
  }

  /** The whole file: every recognised key ends up with the value of its last
      assignment inside a vCloud section, or "" if it was never assigned there. */
  lemma ReadConfigLastValueWins(scan: ScanResult, key: string)
    requires !scan.failed && key in RequiredKeys
    ensures ReadConfig(Some(scan)).Ok?
    ensures var kinds := Kinds(scan.lines);
      LastValue(kinds, |kinds|, key, Field(ReadConfig(Some(scan)).value, key))
  {
    var kinds := Kinds(scan.lines);
    FoldAgreesWithLastValue(kinds, |kinds|);
    assert kinds[..|kinds|] == kinds;
  }

  // ---------------------------------------------------------------------------
  // validateConfig
  // ---------------------------------------------------------------------------

  /** The first key among `keys` whose field is empty. */
  function FirstEmpty(cfg: VCloudConfig, keys: seq<string>): (r: Option<string>)
    requires forall k :: k in keys ==> k in RequiredKeys
    ensures r.None? ==> forall j :: 0 <= j < |keys| ==> Field(cfg, keys[j]) != ""
    ensures r.Some? ==> exists i :: && 0 <= i < |keys| && keys[i] == r.value && Field(cfg, keys[i]) == ""
                                    && forall j :: 0 <= j < i ==> Field(cfg, keys[j]) != ""
  {
    if |keys| == 0 then None
    else if Field(cfg, keys[0]) == "" then Some(keys[0])
    else FirstEmpty(cfg, keys[1..])
  }

  /** validateConfig, None standing for a nil error. `uuidOk` and `urlOk` stand
      for uuid.Parse and url.Parse succeeding on their argument. */
  function ValidateConfig(cfg: VCloudConfig, uuidOk: string -> bool, urlOk: string -> bool): (err: Option<Error>)
    ensures cfg.clusterID == "" ==> err == Some(MissingField("CLUSTER_ID"))
    ensures cfg.clusterID != "" && cfg.clusterName == "" ==> err == Some(MissingField("CLUSTER_NAME"))
    ensures cfg.clusterID != "" && cfg.clusterName != "" && cfg.mgmtURL == ""
      ==> err == Some(MissingField("MGMT_URL"))
    ensures cfg.clusterID != "" && cfg.clusterName != "" && cfg.mgmtURL != "" && cfg.providerToken == ""
      ==> err == Some(MissingField("PROVIDER_TOKEN"))
    ensures err == Some(InvalidClusterID) <==>
      cfg.clusterID != "" && cfg.clusterName != "" && cfg.mgmtURL != "" && cfg.providerToken != ""
      && !uuidOk(cfg.clusterID)
    ensures err == Some(InvalidMgmtURL) <==>
      cfg.clusterID != "" && cfg.clusterName != "" && cfg.mgmtURL != "" && cfg.providerToken != ""
      && uuidOk(cfg.clusterID) && !urlOk(cfg.mgmtURL)
    ensures err == None <==>
      cfg.clusterID != "" && cfg.clusterName != "" && cfg.mgmtURL != "" && cfg.providerToken != ""
      && uuidOk(cfg.clusterID) && urlOk(cfg.mgmtURL)
  {
    assert RequiredKeys[0] == "CLUSTER_ID" && RequiredKeys[1] == "CLUSTER_NAME";
    assert RequiredKeys[2] == "MGMT_URL" && RequiredKeys[3] == "PROVIDER_TOKEN";
    assert Field(cfg, "CLUSTER_ID") == cfg.clusterID && Field(cfg, "CLUSTER_NAME") == cfg.clusterName;
    assert Field(cfg, "MGMT_URL") == cfg.mgmtURL && Field(cfg, "PROVIDER_TOKEN") == cfg.providerToken;
    match FirstEmpty(cfg, RequiredKeys)
    case Some(key) => Some(MissingField(key))
    case None =>
      if !uuidOk(cfg.clusterID) then Some(InvalidClusterID)
      else if !urlOk(cfg.mgmtURL) then Some(InvalidMgmtURL)
      else None
  }
}
