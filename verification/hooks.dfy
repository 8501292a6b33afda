/** Recovery hooks: command preparation and the gate before a recovery. */
module Hooks {
  import opened Topology
  import opened Templates

  /** What the hook commands may refer to. */
  datatype HookData = HookData(
    failureType: string,
    failedUuid: InstanceUuid,
    failedUri: Uri,
    cluster: string,
    rs: SetUuid,
    countFollowers: int,
    countWorking: int,
    countReplicating: int,
    countInconsistent: int,
    isSuccessful: bool,
    successorUuid: InstanceUuid,
    successorUri: Uri)

  function Digits(n: nat): string {
    (if n < 10 then "" else Digits(n / 10)) + ["0123456789"[n % 10]]
  }

  function Decimal(n: int): string {
    if n < 0 then "-" + Digits(-n) else Digits(n)
  }

  function Bool(b: bool): string {
    if b then "true" else "false"
  }

  /** The placeholders and their values, in the order they are replaced. */
  function Substitutions(d: HookData): seq<Substitution> {
    CommonSubstitutions(d) + SuccessorSubstitutions(d)
  }

  function CommonSubstitutions(d: HookData): seq<Substitution> {
    [ Substitution("failureType", d.failureType),
      Substitution("failedUUID", d.failedUuid),
      Substitution("failedURI", d.failedUri),
      Substitution("failureCluster", d.cluster),
      Substitution("failureReplicaSetUUID", d.rs),
      Substitution("countFollowers", Decimal(d.countFollowers)),
      Substitution("countWorkingFollowers", Decimal(d.countWorking)),
      Substitution("countReplicatingFollowers", Decimal(d.countReplicating)),
      Substitution("countInconsistentVShardConf", Decimal(d.countInconsistent)),
      Substitution("isSuccessful", Bool(d.isSuccessful))
    ]
  }

  function SuccessorSubstitutions(d: HookData): seq<Substitution> {
    if d.isSuccessful then
      [Substitution("successorUUID", d.successorUuid), Substitution("successorURI", d.successorUri)]
    else []
  }

  function Names(): set<string> {
    { "failureType", "failedUUID", "failedURI", "failureCluster", "failureReplicaSetUUID", "countFollowers",
      "countWorkingFollowers", "countReplicatingFollowers", "countInconsistentVShardConf", "isSuccessful",
      "successorUUID", "successorURI" }
  }

  /** White space as Unicode defines it. */
  predicate IsSpace(c: char) {
    var code := c as int;
    || 9 <= code <= 13 || code == 0x20 || code == 0x85 || code == 0xA0 || code == 0x1680
    || 0x2000 <= code <= 0x200A || code == 0x2028 || code == 0x2029 || code == 0x202F || code == 0x205F
    || code == 0x3000
  }

  function TrimLeft(s: string, cut: char -> bool): string {
    if s != [] && cut(s[0]) then TrimLeft(s[1..], cut) else s
  }

  function TrimRight(s: string, cut: char -> bool): string {
    if s != [] && cut(s[|s| - 1]) then TrimRight(s[..|s| - 1], cut) else s
  }

  function TrimSpace(s: string): string {
    TrimRight(TrimLeft(s, IsSpace), IsSpace)
  }

  predicate IsAmpersand(c: char) {
    c == '&'
  }

  /** The command without surrounding space and leading ampersands. */
  function Stripped(command: string): string {
    TrimLeft(TrimSpace(command), IsAmpersand)
  }

  lemma {:induction false} LeftTrimmed(s: string, cut: char -> bool) returns (n: nat)
    ensures n <= |s| && TrimLeft(s, cut) == s[n..] && forall k :: 0 <= k < n ==> cut(s[k])
    ensures n < |s| ==> !cut(s[n])
  {
    n := 0;
    if s != [] && cut(s[0]) {
      n := LeftTrimmed(s[1..], cut);
      n := n + 1;
    }
  }

  lemma {:induction false} RightTrimmed(s: string, cut: char -> bool) returns (n: nat)
    ensures n <= |s| && TrimRight(s, cut) == s[..n] && forall k :: n <= k < |s| ==> cut(s[k])
    ensures n > 0 ==> !cut(s[n - 1])
  {
    n := |s|;
    if s != [] && cut(s[|s| - 1]) {
      n := RightTrimmed(s[..|s| - 1], cut);
    }
  }

  /** Trimming takes away white space at both ends, and all of it. */
  lemma TrimmedMeans(command: string) returns (m: nat, n: nat)
    ensures m <= n <= |command| && TrimSpace(command) == command[m..n]
    ensures forall k :: 0 <= k < m || n <= k < |command| ==> IsSpace(command[k])
    ensures m < n ==> !IsSpace(command[m]) && !IsSpace(command[n - 1])
  {
    m := LeftTrimmed(command, IsSpace);
    var tail := command[m..];
    n := RightTrimmed(tail, IsSpace);
    n := n + m;
    assert tail[..n - m] == command[m..n];
    assert forall k :: n <= k < |command| ==> command[k] == tail[k - m];
  }

  /** Of a trimmed command exactly the leading ampersands are stripped. */
  lemma StrippedMeans(command: string) returns (n: nat)
    ensures n <= |TrimSpace(command)| && Stripped(command) == TrimSpace(command)[n..]
    ensures forall k :: 0 <= k < n ==> TrimSpace(command)[k] == '&'
    ensures n < |TrimSpace(command)| ==> TrimSpace(command)[n] != '&'
  {
    hide TrimSpace;
    n := LeftTrimmed(TrimSpace(command), IsAmpersand);
  }

  /** One replacement of a chain over `start`. */
  method Replace(command: string, sub: Substitution, ghost start: string, ghost done: seq<Substitution>)
    returns (result: string, ghost done': seq<Substitution>)
    requires command == ReplaceInTurn(start, done)
    ensures result == ReplaceInTurn(start, done') && done' == done + [sub]
  {
    InTurnAppend(start, done, sub);
    result := ReplaceAll(command, Placeholder(sub.name), sub.value);
    done' := done + [sub];
  }

  method PrepareCommand(command: string, d: HookData) returns (result: string, async: bool)
    ensures async <==> TrimSpace(command) != [] && TrimSpace(command)[0] == '&'
    ensures result == ReplaceInTurn(Stripped(command), Substitutions(d))
  {
    hide ReplaceInTurn, TrimSpace, Decimal, Bool;
    result := TrimSpace(command);
    async := false;
    if result != [] && result[0] == '&' {
      result := TrimLeft(result, IsAmpersand);
      async := true;
    }
    ghost var start := result;
    NothingInTurn(start);
    ghost var done := [];
    result, done := Replace(result, Substitution("failureType", d.failureType), start, done);
    result, done := Replace(result, Substitution("failedUUID", d.failedUuid), start, done);
    result, done := Replace(result, Substitution("failedURI", d.failedUri), start, done);
    result, done := Replace(result, Substitution("failureCluster", d.cluster), start, done);
    result, done := Replace(result, Substitution("failureReplicaSetUUID", d.rs), start, done);
    result, done := Replace(result, Substitution("countFollowers", Decimal(d.countFollowers)), start, done);
    result, done := Replace(result, Substitution("countWorkingFollowers", Decimal(d.countWorking)), start, done);
    var replicating, inconsistent := Decimal(d.countReplicating), Decimal(d.countInconsistent);
    result, done := Replace(result, Substitution("countReplicatingFollowers", replicating), start, done);
    result, done := Replace(result, Substitution("countInconsistentVShardConf", inconsistent), start, done);
    result, done := Replace(result, Substitution("isSuccessful", Bool(d.isSuccessful)), start, done);
    assert done == CommonSubstitutions(d);
    if d.isSuccessful {
      result, done := Replace(result, Substitution("successorUUID", d.successorUuid), start, done);
      result, done := Replace(result, Substitution("successorURI", d.successorUri), start, done);
      assert done == CommonSubstitutions(d) + SuccessorSubstitutions(d);
    } else {
      assert done == CommonSubstitutions(d) + SuccessorSubstitutions(d);
    }
  }

  lemma {:induction false} DigitsAreBraceFree(n: nat)
    ensures '{' !in Digits(n)
  {
    if n >= 10 {
      DigitsAreBraceFree(n / 10);
    }
  }

  ghost predicate BraceFree(d: HookData) {
    && '{' !in d.failureType && '{' !in d.failedUuid && '{' !in d.failedUri && '{' !in d.cluster && '{' !in d.rs
    && '{' !in d.successorUuid && '{' !in d.successorUri
  }

  lemma DecimalIsInert(n: int)
    ensures '{' !in Decimal(n)
    ensures Inert(Decimal(n), Names())
  {
    DigitsAreBraceFree(if n < 0 then -n else n);
  }

  lemma NamesAreNames()
    ensures forall n :: n in Names() ==> IsName(n)
  {
    hide IsName;
    assert IsName("failureType") && IsName("failedUUID") && IsName("failedURI") && IsName("failureCluster") by {
      FirstNames();
    }
    assert IsName("failureReplicaSetUUID") && IsName("countFollowers") && IsName("countWorkingFollowers")
           && IsName("countReplicatingFollowers") by {
      MiddleNames();
    }
    LastNames();
  }

  lemma FirstNames()
    ensures IsName("failureType") && IsName("failedUUID") && IsName("failedURI") && IsName("failureCluster")
  {
  }

  lemma MiddleNames()
    ensures IsName("failureReplicaSetUUID") && IsName("countFollowers") && IsName("countWorkingFollowers")
            && IsName("countReplicatingFollowers")
  {
  }

  lemma LastNames()
    ensures IsName("countInconsistentVShardConf") && IsName("isSuccessful")
            && IsName("successorUUID") && IsName("successorURI")
  {
  }

  lemma SubstitutionsAreProper(d: HookData)
    requires BraceFree(d)
    ensures Proper(Substitutions(d), Names())
  {
    hide Decimal, IsName, NotAPlaceholder;
    NamesAreNames();
    DecimalIsInert(d.countFollowers);
    DecimalIsInert(d.countWorking);
    DecimalIsInert(d.countReplicating);
    DecimalIsInert(d.countInconsistent);
  }

  lemma {:induction false} ValueOfAt(subs: seq<Substitution>, k: nat)
    requires k < |subs| && forall j :: 0 <= j < k ==> subs[j].name != subs[k].name
    ensures ValueOf(subs, subs[k].name) == Some(subs[k].value)
  {
    if k > 0 {
      ValueOfAt(subs[1..], k - 1);
    }
  }

  lemma Stands(d: HookData, k: nat, sub: Substitution)
    requires k < |Substitutions(d)| && Substitutions(d)[k] == sub
    ensures ValueOf(Substitutions(d), sub.name) == Some(sub.value)
  {
    hide Substitutions, ValueOf;
    NamesDiffer(d);
    ValueOfAt(Substitutions(d), k);
  }

  /** What each placeholder stands for; the successor only after a successful recovery. */
  lemma PlaceholdersMean(d: HookData)
    ensures ValueOf(Substitutions(d), "failureType") == Some(d.failureType)
    ensures ValueOf(Substitutions(d), "failedUUID") == Some(d.failedUuid)
    ensures ValueOf(Substitutions(d), "failedURI") == Some(d.failedUri)
    ensures ValueOf(Substitutions(d), "failureCluster") == Some(d.cluster)
    ensures ValueOf(Substitutions(d), "failureReplicaSetUUID") == Some(d.rs)
    ensures ValueOf(Substitutions(d), "countFollowers") == Some(Decimal(d.countFollowers))
    ensures ValueOf(Substitutions(d), "countWorkingFollowers") == Some(Decimal(d.countWorking))
    ensures ValueOf(Substitutions(d), "countReplicatingFollowers") == Some(Decimal(d.countReplicating))
    ensures ValueOf(Substitutions(d), "countInconsistentVShardConf") == Some(Decimal(d.countInconsistent))
    ensures ValueOf(Substitutions(d), "isSuccessful") == Some(if d.isSuccessful then "true" else "false")
    ensures d.isSuccessful ==> ValueOf(Substitutions(d), "successorUUID") == Some(d.successorUuid)
    ensures d.isSuccessful ==> ValueOf(Substitutions(d), "successorURI") == Some(d.successorUri)
  {
    hide Decimal, ValueOf;
    Stands(d, 0, Substitution("failureType", d.failureType));
    Stands(d, 1, Substitution("failedUUID", d.failedUuid));
    Stands(d, 2, Substitution("failedURI", d.failedUri));
    Stands(d, 3, Substitution("failureCluster", d.cluster));
    Stands(d, 4, Substitution("failureReplicaSetUUID", d.rs));
    Stands(d, 5, Substitution("countFollowers", Decimal(d.countFollowers)));
    Stands(d, 6, Substitution("countWorkingFollowers", Decimal(d.countWorking)));
    Stands(d, 7, Substitution("countReplicatingFollowers", Decimal(d.countReplicating)));
    Stands(d, 8, Substitution("countInconsistentVShardConf", Decimal(d.countInconsistent)));
    Stands(d, 9, Substitution("isSuccessful", if d.isSuccessful then "true" else "false"));
    if d.isSuccessful {
      Stands(d, 10, Substitution("successorUUID", d.successorUuid));
      Stands(d, 11, Substitution("successorURI", d.successorUri));
    }
  }

  predicate IsDigit(c: char) {
    '0' <= c <= '9'
  }

  /** The number that digits stand for. */
  function Reading(digits: string): int {
    if digits == "" then 0 else 10 * Reading(digits[..|digits| - 1]) + (digits[|digits| - 1] as int - '0' as int)
  }

  lemma DigitReads(d: nat)
    requires d < 10
    ensures "0123456789"[d] as int - '0' as int == d && IsDigit("0123456789"[d])
  {
  }

  lemma ReadingOne(c: char, front: string)
    ensures Reading(front + [c]) == 10 * Reading(front) + (c as int - '0' as int)
  {
    assert (front + [c])[..|front|] == front;
  }

  lemma {:induction false} DigitsReadBack(n: nat)
    ensures Digits(n) != "" && Reading(Digits(n)) == n
    ensures forall k :: 0 <= k < |Digits(n)| ==> IsDigit(Digits(n)[k])
    ensures n > 0 ==> Digits(n)[0] != '0'
  {
    hide Reading, IsDigit;
    DigitReads(n % 10);
    if n >= 10 {
      DigitsReadBack(n / 10);
      ReadingOne("0123456789"[n % 10], Digits(n / 10));
    } else {
      ReadingOne("0123456789"[n % 10], "");
      assert Reading("") == 0 by { ReadingNothing(); }
    }
  }

  lemma ReadingNothing()
    ensures Reading("") == 0
  {
  }

  /** Numbers are written in decimal, without leading zeros, negative ones behind a sign. */
  lemma DecimalReadsBack(n: int)
    ensures n >= 0 ==> Reading(Decimal(n)) == n && (n > 0 ==> Decimal(n)[0] != '0')
    ensures n < 0 ==> Decimal(n)[0] == '-' && Reading(Decimal(n)[1..]) == -n && Decimal(n)[1] != '0'
    ensures forall k :: (if n < 0 then 1 else 0) <= k < |Decimal(n)| ==> IsDigit(Decimal(n)[k])
  {
    hide Digits, Reading;
    DigitsReadBack(if n < 0 then -n else n);
    if n < 0 {
      assert Decimal(n)[1..] == Digits(-n);
    }
  }

  /** A prepared command is the template with all values put in at once. */
  lemma CommandIsFilledAtOnce(segments: seq<Segment>, d: HookData)
    requires WellFormed(segments, Names()) && BraceFree(d)
    ensures ReplaceInTurn(Render(segments), Substitutions(d)) == Render(Fill(segments, Substitutions(d)))
  {
    SubstitutionsAreProper(d);
    InTurnIsAtOnce(segments, Substitutions(d), Names());
  }

  function NameLengths(): seq<nat> {
    [11, 10, 9, 14, 21, 14, 21, 25, 27, 12, 13, 12]
  }

  function FirstLetters(): string {
    "fffffcccciss"
  }

  lemma NameShapes(d: HookData, k: nat)
    requires k < |Substitutions(d)|
    ensures k < 12 && |Substitutions(d)[k].name| == NameLengths()[k] && Substitutions(d)[k].name[0] == FirstLetters()[k]
  {
    hide Decimal, Bool;
  }

  lemma ShapesDiffer(j: nat, k: nat)
    requires j < k < 12
    ensures NameLengths()[j] != NameLengths()[k] || FirstLetters()[j] != FirstLetters()[k]
  {
  }

  /** The placeholders already differ in their length or first letter. */
  lemma NamesDiffer(d: HookData)
    ensures forall j, k :: 0 <= j < k < |Substitutions(d)| ==> Substitutions(d)[j].name != Substitutions(d)[k].name
  {
    hide Substitutions, NameLengths, FirstLetters;
    forall j, k | 0 <= j < k < |Substitutions(d)| ensures Substitutions(d)[j].name != Substitutions(d)[k].name {
      NameShapes(d, j);
      NameShapes(d, k);
      ShapesDiffer(j, k);
    }
  }

  lemma SubstitutionsArePlain(d: HookData)
    requires BraceFree(d)
    ensures Plain(Substitutions(d))
  {
    hide Decimal, IsName;
    NamesDiffer(d);
    NamesAreNames();
    DecimalIsInert(d.countFollowers);
    DecimalIsInert(d.countWorking);
    DecimalIsInert(d.countReplicating);
    DecimalIsInert(d.countInconsistent);
  }

  /** For any template it is exactly when each placeholder stands in holes only by the time
      it is replaced. */
  lemma CommandIsFilledAtOnceIff(segments: seq<Segment>, d: HookData)
    requires HolesNamed(segments) && BraceFree(d)
    ensures ReplaceInTurn(Render(segments), Substitutions(d)) == Render(Fill(segments, Substitutions(d)))
            <==> StandsInHoles(segments, Substitutions(d))
  {
    hide IsName, Substitutions, BraceFree;
    SubstitutionsArePlain(d);
    InTurnIsAtOnceIff(segments, Substitutions(d));
  }

  function BracedCluster(): seq<Segment> {
    [Literal("{"), Hole("failureCluster"), Literal("}")]
  }

  lemma BracedClusterArises(d: HookData)
    requires d.cluster == "isSuccessful"
    ensures |Substitutions(d)| > 9 && Substitutions(d)[9].name == "isSuccessful"
    ensures Fill(BracedCluster(), Substitutions(d)[..9]) == [Literal("{"), Literal("isSuccessful"), Literal("}")]
  {
    hide Decimal, Bool;
    var subs := Substitutions(d);
    NamesDiffer(d);
    assert subs[..9][3] == Substitution("failureCluster", d.cluster);
    ValueOfAt(subs[..9], 3);
  }

  /** A cluster named like a later placeholder, put between literal braces, is such a case:
      what it forms is replaced in its turn. */
  lemma OpenBraceBeforeHole(d: HookData)
    requires BraceFree(d) && d.cluster == "isSuccessful"
    ensures Render(BracedCluster()) == "{{failureCluster}}"
    ensures ReplaceInTurn("{{failureCluster}}", Substitutions(d)) != Render(Fill(BracedCluster(), Substitutions(d)))
  {
    hide Substitutions, Decimal, BraceFree, ReplaceInTurn, Fill, Render;
    BracedClusterArises(d);
    RenderThree(Literal("{"), Hole("failureCluster"), Literal("}"));
    FirstNames();
    LastNames();
    FormedPlaceholderIsStray(BracedCluster(), Substitutions(d), 9);
    CommandIsFilledAtOnceIff(BracedCluster(), d);
  }

  lemma {:induction false} NoValueFor(subs: seq<Substitution>, name: string)
    requires forall k :: 0 <= k < |subs| ==> subs[k].name != name
    ensures ValueOf(subs, name) == None
    decreases |subs|
  {
    if subs != [] {
      NoValueFor(subs[1..], name);
    }
  }

  /** After an unsuccessful recovery the successor placeholders stay as they are. */
  lemma SuccessorStaysOpen(segments: seq<Segment>, d: HookData, k: nat)
    requires !d.isSuccessful && k < |segments|
    requires segments[k] == Hole("successorUUID") || segments[k] == Hole("successorURI")
    ensures Fill(segments, Substitutions(d))[k] == segments[k]
  {
    hide Decimal, Bool;
    var subs := Substitutions(d);
    assert forall j :: 0 <= j < |subs| ==> subs[j].name[0] in {'f', 'c', 'i'};
    assert segments[k].name[0] == 's';
    NoValueFor(subs, segments[k].name);
  }

  /** A configured hook: an asynchronous one is started and its outcome ignored. */
  datatype Process = Process(async: bool, fails: bool)

  ghost predicate IsFirstFailure(processes: seq<Process>, k: nat) {
    && k < |processes|
    && !processes[k].async && processes[k].fails
    && forall j :: 0 <= j < k ==> processes[j].async || !processes[j].fails
  }

  /** Runs the hooks in order. The error is the first synchronous failure either way; it
      keeps the later hooks from running only when asked to fail on errors. */
  method ExecuteProcesses(processes: seq<Process>, failOnError: bool) returns (err: Option<nat>, ran: nat)
    ensures err.None? <==> forall k :: 0 <= k < |processes| ==> processes[k].async || !processes[k].fails
    ensures err.Some? ==> IsFirstFailure(processes, err.value)
    ensures ran == if failOnError && err.Some? then err.value + 1 else |processes|
  {
    err, ran := None, 0;
    for k := 0 to |processes|
      invariant ran == k
      invariant err.None? ==> forall j :: 0 <= j < k ==> processes[j].async || !processes[j].fails
      invariant err.Some? ==> !failOnError && IsFirstFailure(processes, err.value)
    {
      ran := ran + 1;
      if !processes[k].async && processes[k].fails {
        if failOnError {
          return Some(k), ran;
        }
        if err == None {
          err := Some(k);
        }
      }
    }
  }
}
