/**
 The capability scope of the legacy runner: an order in which scopes may only shrink, the policy
 that reads a scope, and what the scope's hash does and does not fix.
 */
module Capability {
  import opened Octets

  datatype Mode = Auto | Required
  datatype Rule = Rule(action: string, mode: Mode)

  datatype Scope = Scope(services: seq<string>, actions: seq<string>, rules: seq<Rule>, version: int, hash: string)

  /** What is hashed: sorted names as multisets, and one mode per action. */
  datatype Payload = Payload(
    actions: multiset<string>, services: multiset<string>, modes: map<string, Mode>, version: int)

  type Hash = Payload -> string

  /** The mode of the first rule for the action. */
  function ModeFor(rules: seq<Rule>, action: string): Option<Mode> {
    if rules == [] then None
    else if rules[0].action == action then Some(rules[0].mode)
    else ModeFor(rules[1..], action)
  }

  /** The modes a dictionary keeps: a later rule for the same action replaces an earlier one. */
  function ModeTable(rules: seq<Rule>): map<string, Mode> {
    if rules == [] then map[]
    else ModeTable(rules[..|rules| - 1])[rules[|rules| - 1].action := rules[|rules| - 1].mode]
  }

  function CanonicalPayload(s: Scope): Payload {
    Payload(multiset(s.actions), multiset(s.services), ModeTable(s.rules), s.version)
  }

  predicate Sealed(sha: Hash, s: Scope) {
    s.hash != "" && s.hash == sha(CanonicalPayload(s))
  }

  function Strength(mode: Mode): int {
    if mode == Auto then 0 else 1
  }

  predicate NoWeaker(was: Option<Mode>, now: Option<Mode>) {
    was.Some? && now.Some? && Strength(now.value) >= Strength(was.value)
  }

  ghost predicate Below(s: Scope, previous: Scope) {
    && s.version >= previous.version
    && (forall x :: x in s.services ==> x in previous.services)
    && (forall x :: x in s.actions ==> x in previous.actions)
    && (forall x :: x in s.actions ==> NoWeaker(ModeFor(previous.rules, x), ModeFor(s.rules, x)))
  }

  /** The check of the source, action by action with an early return. */
  method IsSubsetOf(s: Scope, previous: Scope) returns (ok: bool)
    ensures ok <==> Below(s, previous)
  {
    if s.version < previous.version { return false; }
    if exists x :: x in s.services && x !in previous.services { return false; }
    if exists x :: x in s.actions && x !in previous.actions { return false; }
    for n := 0 to |s.actions|
      invariant forall k :: 0 <= k < n ==>
                              NoWeaker(ModeFor(previous.rules, s.actions[k]), ModeFor(s.rules, s.actions[k]))
    {
      var was, now := ModeFor(previous.rules, s.actions[n]), ModeFor(s.rules, s.actions[n]);
      if was.None? || now.None? || Strength(now.value) < Strength(was.value) { return false; }
    }
    return true;
  }

  /** Scopes below scopes below a scope are below it. */
  lemma BelowIsTransitive(a: Scope, b: Scope, c: Scope)
    requires Below(a, b) && Below(b, c)
    ensures Below(a, c)
  {
    forall x | x in a.actions ensures NoWeaker(ModeFor(c.rules, x), ModeFor(a.rules, x)) {
      assert x in b.actions;
    }
  }

  /** A scope is below itself, so a run can be saved again unchanged, exactly if every allowed action has a rule. */
  lemma BelowItselfIff(s: Scope)
    ensures Below(s, s) <==> forall x :: x in s.actions ==> ModeFor(s.rules, x).Some?
  {
  }

  // ---- The policy ------------------------------------------------------------------

  datatype Value =
    | Text(text: string) | Number(number: int) | Flag(flag: bool) | List(items: seq<string>) | Null
    | Other(json: string)

  datatype Decision =
    | AllowAuto | RequireApproval | DenyOutOfScope | DenyUnknownAction | DenyInvalidArguments | DenyInvalidScope
    | DenyInternalError

  type Args = map<string, Value>

  function Resource(args: Args): Option<string> {
    if "service" in args && args["service"].Text? then Some(args["service"].text) else None
  }

  const KNOWN_ACTIONS := {"service_status", "read_log", "restart_service"}

  predicate ValidArgs(action: string, args: Args) {
    && args.Keys == (if action != "read_log" then {"service"} else {"service", "lines"})
    && Resource(args).Some? && Resource(args).value != ""
    && (action == "read_log" ==> args["lines"].Number? && 1 <= args["lines"].number <= 1000)
  }

  function Evaluate(sha: Hash, action: string, args: Args, s: Scope): Decision {
    if !Sealed(sha, s) then DenyInvalidScope
    else if action !in KNOWN_ACTIONS then DenyUnknownAction
    else if action !in s.actions then DenyOutOfScope
    else if !ValidArgs(action, args) then DenyInvalidArguments
    else if Resource(args).value !in s.services then DenyOutOfScope
    else
      match ModeFor(s.rules, action)
      case Some(Auto) => AllowAuto
      case Some(Required) => RequireApproval
      case None => DenyInvalidScope
  }

  /** Exactly the arguments the action takes: a service with a name, and for a log the number of lines. */
  ghost predicate WellFormed(action: string, args: Args) {
    && "service" in args && args["service"].Text? && |args["service"].text| > 0
    && (forall key :: key in args ==> key == "service" || (key == "lines" && action == "read_log"))
    && (action == "read_log" ==> "lines" in args && args["lines"].Number? && 0 < args["lines"].number < 1001)
  }

  /** The first rule for the action gives it this mode. */
  ghost predicate Governs(rules: seq<Rule>, action: string, mode: Mode) {
    exists k :: 0 <= k < |rules| && rules[k] == Rule(action, mode) && forall i :: 0 <= i < k ==>
      rules[i].action != action
  }

  ghost predicate Ungoverned(rules: seq<Rule>, action: string) {
    forall k :: 0 <= k < |rules| ==> rules[k].action != action
  }

  lemma ModeIsGoverned(rules: seq<Rule>, action: string, mode: Mode)
    ensures ModeFor(rules, action) == Some(mode) <==> Governs(rules, action, mode)
    ensures ModeFor(rules, action).None? <==> Ungoverned(rules, action)
  {
    if k :| 0 <= k < |rules| && rules[k].action == action {
      var first := FirstRule(rules, action, k);
      FirstIs(rules, first);
    } else {
      NoRule(rules, action);
    }
  }

  lemma {:induction false} FirstRule(rules: seq<Rule>, action: string, k: nat) returns (first: nat)
    requires k < |rules| && rules[k].action == action
    ensures first <= k && rules[first].action == action && forall i :: 0 <= i < first ==> rules[i].action != action
  {
    if i :| 0 <= i < k && rules[i].action == action { first := FirstRule(rules, action, i); } else { first := k; }
  }

  lemma ArgsAreWellFormed(action: string, args: Args)
    ensures ValidArgs(action, args) <==> WellFormed(action, args)
  {
    if WellFormed(action, args) {
      assert args.Keys == (if action != "read_log" then {"service"} else {"service", "lines"});
    }
  }

  /** The scope is intact and the call asks for a known action that it allows. */
  ghost predicate Admissible(sha: Hash, action: string, s: Scope) {
    && s.hash != "" && s.hash == sha(CanonicalPayload(s))
    && (action == "service_status" || action == "read_log" || action == "restart_service") && action in s.actions
  }

  /** The call stays inside the scope: an allowed action with its own arguments on an allowed service. */
  ghost predicate Inside(sha: Hash, action: string, args: Args, s: Scope) {
    Admissible(sha, action, s) && WellFormed(action, args) && args["service"].text in s.services
  }

  /** When the policy allows a call, asks for approval, or denies, and for which reason. */
  lemma DecisionIff(sha: Hash, action: string, args: Args, s: Scope)
    ensures var d := Evaluate(sha, action, args, s);
            var intact := s.hash != "" && s.hash == sha(CanonicalPayload(s));
            var known := action == "service_status" || action == "read_log" || action == "restart_service";
            && (d == AllowAuto <==> Inside(sha, action, args, s) && Governs(s.rules, action, Auto))
            && (d == RequireApproval <==> Inside(sha, action, args, s) && Governs(s.rules, action, Required))
            && (d == DenyUnknownAction <==> intact && !known)
            && (d == DenyOutOfScope <==>
                && intact && known
                && (action !in s.actions || (WellFormed(action, args) && args["service"].text !in s.services)))
            && (d == DenyInvalidArguments <==> Admissible(sha, action, s) && !WellFormed(action, args))
            && (d == DenyInvalidScope <==> !intact || (Inside(sha, action, args, s) && Ungoverned(s.rules, action)))
            && d != DenyInternalError
  {
    hide WellFormed, Governs, Ungoverned, ValidArgs, CanonicalPayload;
    ModeIsGoverned(s.rules, action, Auto);
    ModeIsGoverned(s.rules, action, Required);
    ArgsAreWellFormed(action, args);
    if WellFormed(action, args) { NamedService(action, args); }
  }

  lemma NamedService(action: string, args: Args)
    requires WellFormed(action, args)
    ensures Resource(args) == Some(args["service"].text)
  {
  }

  /** What a smaller scope allows automatically, a sealed larger one does too: shrinking never drops an approval. */
  lemma ShrinkingKeepsApprovals(sha: Hash, action: string, args: Args, s: Scope, previous: Scope)
    requires Below(s, previous) && Evaluate(sha, action, args, s) == AllowAuto
    ensures Evaluate(sha, action, args, previous) == AllowAuto <==> Sealed(sha, previous)
  {
    assert NoWeaker(ModeFor(previous.rules, action), ModeFor(s.rules, action));
  }

  // ---- Saving ------------------------------------------------------------------------

  /** The scope stored after an attempt to save: the first goes in unchecked, later ones must be sealed and below. */
  ghost function Saved(sha: Hash, stored: Option<Scope>, s: Scope): Option<Scope> {
    if stored.None? || (Sealed(sha, s) && Below(s, stored.value)) then Some(s) else stored
  }

  ghost function SavedAll(sha: Hash, scopes: seq<Scope>): Option<Scope> {
    if scopes == [] then None else Saved(sha, SavedAll(sha, scopes[..|scopes| - 1]), scopes[|scopes| - 1])
  }

  /** Over any sequence of saves the stored scope is the first one or a sealed scope below every earlier one. */
  lemma {:induction false} StoredScopeOnlyShrinks(sha: Hash, scopes: seq<Scope>, n: nat)
    requires 0 < n <= |scopes|
    ensures SavedAll(sha, scopes[..n]).Some? && SavedAll(sha, scopes).Some?
    ensures var earlier, stored := SavedAll(sha, scopes[..n]).value, SavedAll(sha, scopes).value;
            stored == earlier || (Sealed(sha, stored) && Below(stored, earlier))
    decreases |scopes|
  {
    hide Below, Sealed;
    var before := scopes[..|scopes| - 1];
    if n == |scopes| {
      assert scopes[..n] == scopes;
      if |scopes| > 1 { StoredScopeOnlyShrinks(sha, before, |before|); assert before[..|before|] == before; }
    } else {
      assert before[..n] == scopes[..n];
      StoredScopeOnlyShrinks(sha, before, n);
      var earlier, middle, stored := SavedAll(sha, scopes[..n]).value, SavedAll(sha, before).value,
        SavedAll(sha, scopes).value;
      if stored != middle && middle != earlier { BelowIsTransitive(stored, middle, earlier); }
    }
  }

  /** So a call that some later stored scope allows automatically was allowed by every sealed earlier one. */
  lemma ApprovalsAreNeverWeakened(sha: Hash, scopes: seq<Scope>, n: nat, action: string, args: Args)
    requires 0 < n <= |scopes| && SavedAll(sha, scopes).Some? && SavedAll(sha, scopes[..n]).Some?
    requires Evaluate(sha, action, args, SavedAll(sha, scopes).value) == AllowAuto
    ensures Evaluate(sha, action, args, SavedAll(sha, scopes[..n]).value) == AllowAuto <==>
            Sealed(sha, SavedAll(sha, scopes[..n]).value)
  {
    hide Below, SavedAll;
    StoredScopeOnlyShrinks(sha, scopes, n);
    var earlier, stored := SavedAll(sha, scopes[..n]).value, SavedAll(sha, scopes).value;
    if stored != earlier { ShrinkingKeepsApprovals(sha, action, args, stored, earlier); }
  }

  // ---- What the hash fixes -------------------------------------------------------------

  /** The mode of the last rule for the action. */
  function LastModeFor(rules: seq<Rule>, action: string): Option<Mode> {
    if rules == [] then None
    else if rules[|rules| - 1].action == action then Some(rules[|rules| - 1].mode)
    else LastModeFor(rules[..|rules| - 1], action)
  }

  lemma {:induction false} TableHoldsLast(rules: seq<Rule>, action: string)
    ensures LastModeFor(rules, action) ==
            if action in ModeTable(rules) then Some(ModeTable(rules)[action]) else None
  {
    if rules != [] { TableHoldsLast(rules[..|rules| - 1], action); }
  }

  /** No action has a first rule that disagrees with its last one. */
  ghost predicate Unambiguous(rules: seq<Rule>) {
    forall action :: ModeFor(rules, action) == LastModeFor(rules, action)
  }

  /**
   The policy reads the first rule of an action, the hash the last. Scopes with the same hashed payload give every
   action the same mode, compared with an unambiguous one, exactly if they are unambiguous too.
   */
  lemma SamePayloadSameModes(a: Scope, b: Scope)
    requires CanonicalPayload(a) == CanonicalPayload(b) && Unambiguous(a.rules)
    ensures SameModes(a.rules, b.rules) <==> Unambiguous(b.rules)
  {
    if SameModes(a.rules, b.rules) {
      forall action ensures ModeFor(b.rules, action) == LastModeFor(b.rules, action) { SameLast(a, b, action); }
    }
    if Unambiguous(b.rules) {
      forall action ensures ModeFor(a.rules, action) == ModeFor(b.rules, action) { SameLast(a, b, action); }
    }
  }

  ghost predicate SameModes(a: seq<Rule>, b: seq<Rule>) {
    forall action :: ModeFor(a, action) == ModeFor(b, action)
  }

  lemma SameLast(a: Scope, b: Scope, action: string)
    requires CanonicalPayload(a) == CanonicalPayload(b) && Unambiguous(a.rules)
    ensures LastModeFor(a.rules, action) == LastModeFor(b.rules, action) == ModeFor(a.rules, action)
  {
    TableHoldsLast(a.rules, action);
    TableHoldsLast(b.rules, action);
  }

  /** Distinct rule actions are enough. */
  lemma {:induction false} DistinctIsUnambiguous(rules: seq<Rule>, action: string)
    requires forall i, j :: 0 <= i < j < |rules| ==> rules[i].action != rules[j].action
    ensures ModeFor(rules, action) == LastModeFor(rules, action)
  {
    if k :| 0 <= k < |rules| && rules[k].action == action {
      FirstIs(rules, k);
      LastIs(rules, k);
    } else {
      NoRule(rules, action);
    }
  }

  lemma {:induction false} FirstIs(rules: seq<Rule>, k: nat)
    requires k < |rules| && forall i :: 0 <= i < k ==> rules[i].action != rules[k].action
    ensures ModeFor(rules, rules[k].action) == Some(rules[k].mode)
  {
    if k > 0 { FirstIs(rules[1..], k - 1); }
  }

  lemma {:induction false} LastIs(rules: seq<Rule>, k: nat)
    requires k < |rules| && forall i :: k < i < |rules| ==> rules[i].action != rules[k].action
    ensures LastModeFor(rules, rules[k].action) == Some(rules[k].mode)
  {
    if k < |rules| - 1 { LastIs(rules[..|rules| - 1], k); }
  }

  lemma {:induction false} NoRule(rules: seq<Rule>, action: string)
    requires forall k :: 0 <= k < |rules| ==> rules[k].action != action
    ensures ModeFor(rules, action).None? && LastModeFor(rules, action).None?
  {
    if rules != [] {
      NoRule(rules[1..], action);
      NoRule(rules[..|rules| - 1], action);
    }
  }

  lemma LaterRuleWins(twice: seq<Rule>, once: seq<Rule>)
    requires |twice| == 2 && |once| == 1 && twice[0].action == twice[1].action && twice[1] == once[0]
    ensures ModeTable(twice) == ModeTable(once)
  {
    var first := twice[..1];
    assert first[..0] == [] && once[..0] == [] && ModeTable([]) == map[];
    assert ModeTable(once) == map[once[0].action := once[0].mode];
    assert ModeTable(first) == map[twice[0].action := twice[0].mode];
  }

  /** Two scopes sealed by the same hash, of which one asks for approval and the other does not. */
  lemma EqualHashDifferentModes(sha: Hash, services: seq<string>)
    ensures exists a: Scope, b: Scope ::
              && CanonicalPayload(a) == CanonicalPayload(b) && a.hash == b.hash == sha(CanonicalPayload(a))
              && a.services == b.services == services
              && ModeFor(a.rules, "restart_service") == Some(Required)
              && ModeFor(b.rules, "restart_service") == Some(Auto)
  {
    var twice := [Rule("restart_service", Required), Rule("restart_service", Auto)];
    var once := [Rule("restart_service", Auto)];
    var actions := ["restart_service"];
    LaterRuleWins(twice, once);
    var hash := sha(Payload(multiset(actions), multiset(services), ModeTable(once), 1));
    var a, b := Scope(services, actions, twice, 1, hash), Scope(services, actions, once, 1, hash);
    assert CanonicalPayload(a) == CanonicalPayload(b);
  }

  // ---- The scope a run starts with --------------------------------------------------------

  const DEFAULT_ACTIONS := ["read_log", "restart_service", "service_status"]

  function CompileScope(sha: Hash, service: string): Scope {
    var draft := Scope(
      [service], DEFAULT_ACTIONS,
      [Rule("read_log", Auto), Rule("restart_service", if service == "nginx" then Auto else Required),
       Rule("service_status", Auto)], 1, "");
    draft.(hash := sha(CanonicalPayload(draft)))
  }

  /** A compiled scope is sealed and can be saved again. */
  lemma CompiledScopeIsSettled(sha: Hash, service: string)
    requires forall p :: sha(p) != ""
    ensures Sealed(sha, CompileScope(sha, service)) && Below(CompileScope(sha, service), CompileScope(sha, service))
  {
    var s := CompileScope(sha, service);
    FirstIs(s.rules, 0);
    FirstIs(s.rules, 1);
    FirstIs(s.rules, 2);
    BelowItselfIff(s);
  }

  /**
   The scope compiled for a service allows its log and its status to be read automatically, and a restart too for nginx;
   any other service is restarted only with approval. Nothing on another service is allowed.
   */
  lemma CompiledScopeAllows(sha: Hash, service: string, action: string, args: Args)
    requires forall p :: sha(p) != ""
    ensures var d := Evaluate(sha, action, args, CompileScope(sha, service));
            && (d == AllowAuto <==>
                && WellFormed(action, args) && args["service"].text == service
                && (action == "read_log" || action == "service_status" ||
                    (action == "restart_service" && service == "nginx")))
            && (d == RequireApproval <==>
                && WellFormed(action, args) && args["service"].text == service
                && action == "restart_service" && service != "nginx")
  {
    var s := CompileScope(sha, service);
    CompiledScopeIsSettled(sha, service);
    ArgsAreWellFormed(action, args);
    hide WellFormed, ValidArgs, CanonicalPayload;
    FirstIs(s.rules, 0);
    FirstIs(s.rules, 1);
    FirstIs(s.rules, 2);
    if WellFormed(action, args) { NamedService(action, args); }
  }
}
