/** The target loop of `ValidateServe` (internal/config/config.go): which targets it reports, and
    what a silent loop guarantees to deliveries. */
module Targets {
  import opened GoStrings
  import opened DeliveryQueue
  import opened DeliveryTheorems

  datatype Problem = UnknownType | IdRequired | IdPadded | NamePadded

  datatype TargetError =
    | NoTargets
    | InvalidTarget(index: nat, problems: seq<Problem>)
    | DuplicateTarget(index: nat)

  function Problems(target: Target): seq<Problem> {
    (if Supported(target) then [] else [UnknownType])
      + (if TrimSpace(target.id) == "" then [IdRequired]
         else if target.id != TrimSpace(target.id) then [IdPadded] else [])
      + (if target.name != TrimSpace(target.name) then [NamePadded] else [])
  }

  predicate SameDestination(s: Target, t: Target) {
    s.kind == t.kind && s.id == t.id
  }

  /** What is wrong with each target. */
  function Verdicts(targets: seq<Target>): (verdicts: seq<seq<Problem>>)
    ensures |verdicts| == |targets|
  {
    seq(|targets|, i requires 0 <= i < |targets| => Problems(targets[i]))
  }

  /** Target `i` repeats the destination of an earlier acceptable target. */
  predicate Repeats(targets: seq<Target>, verdicts: seq<seq<Problem>>, i: nat)
    requires i < |targets| == |verdicts|
  {
    exists j :: 0 <= j < i && verdicts[j] == [] && SameDestination(targets[j], targets[i])
  }

  function Report(targets: seq<Target>, verdicts: seq<seq<Problem>>, i: nat): seq<TargetError>
    requires i < |targets| == |verdicts|
  {
    if verdicts[i] != [] then [InvalidTarget(i, verdicts[i])]
    else if Repeats(targets, verdicts, i) then [DuplicateTarget(i)]
    else []
  }

  function Concat(reports: seq<seq<TargetError>>): seq<TargetError> {
    if reports == [] then [] else Concat(reports[..|reports| - 1]) + reports[|reports| - 1]
  }

  /** What is reported about each target. */
  function Reports(targets: seq<Target>, verdicts: seq<seq<Problem>>): (reports: seq<seq<TargetError>>)
    requires |targets| == |verdicts|
    ensures |reports| == |targets|
  {
    seq(|targets|, i requires 0 <= i < |targets| => Report(targets, verdicts, i))
  }

  function NoneConfigured(targets: seq<Target>): seq<TargetError> {
    if targets == [] then [NoTargets] else []
  }

  /** Every error about targets, in order. */
  function TargetErrors(targets: seq<Target>): seq<TargetError> {
    NoneConfigured(targets) + Concat(Reports(targets, Verdicts(targets)))
  }

  function Key(target: Target): string {
    target.kind + "\0" + target.id
  }

  /** The key tells accepted targets apart by type and ID: no accepted type contains a NUL. */
  lemma KeyIsInjective(s: Target, t: Target)
    requires Supported(s) && Supported(t)
    ensures Key(s) == Key(t) <==> SameDestination(s, t)
  {
    assert Key(s) == s.kind + ['\0'] + s.id && Key(t) == t.kind + ['\0'] + t.id;
    CutAt(s.kind, '\0', s.id);
    CutAt(t.kind, '\0', t.id);
  }

  predicate Acceptable(target: Target) {
    target.kind in {"channel", "group", "user"} && !Blank(target.id) && Trimmed(target.id) && Trimmed(target.name)
  }

  lemma ProblemsMeaning(target: Target)
    ensures Describes(Problems(target), target)
  {
    BlankTrims(target.id);
    FixedIsTrimmed(target.id);
    FixedIsTrimmed(target.name);
  }

  /** `errs` names what is wrong with the target: a type the sender does not know, an ID that is
      blank or has spaces at an end, a name that has. */
  predicate Describes(errs: seq<Problem>, target: Target) {
    && (UnknownType in errs <==> target.kind !in {"channel", "group", "user"})
    && (IdRequired in errs <==> Blank(target.id))
    && (IdPadded in errs <==> !Blank(target.id) && !Trimmed(target.id))
    && (NamePadded in errs <==> !Trimmed(target.name))
    && (errs == [] <==> Acceptable(target))
    && (forall i, j :: 0 <= i < j < |errs| ==> errs[i] != errs[j])
  }

  method ValidateTarget(target: Target) returns (errs: seq<Problem>)
    ensures Describes(errs, target)
    ensures errs == Problems(target)
  {
    errs := [];
    if target.kind != "channel" && target.kind != "group" && target.kind != "user" {
      errs := errs + [UnknownType];
    }
    if TrimSpace(target.id) == "" {
      errs := errs + [IdRequired];
    } else if target.id != TrimSpace(target.id) {
      errs := errs + [IdPadded];
    }
    if target.name != TrimSpace(target.name) {
      errs := errs + [NamePadded];
    }
    assert errs == Problems(target);
    ProblemsMeaning(target);
  }

  /** The keys the loop has seen are those of the acceptable targets before `n`. */
  ghost predicate SeenBefore(targets: seq<Target>, verdicts: seq<seq<Problem>>, n: nat, seen: set<string>)
    requires n <= |targets| == |verdicts|
  {
    forall key :: key in seen <==> exists j :: 0 <= j < n && verdicts[j] == [] && Key(targets[j]) == key
  }

  ghost predicate AcceptableAreSupported(targets: seq<Target>, verdicts: seq<seq<Problem>>)
    requires |targets| == |verdicts|
  {
    forall j :: 0 <= j < |targets| && verdicts[j] == [] ==> Supported(targets[j])
  }

  lemma VerdictsMeaning(targets: seq<Target>)
    ensures AcceptableAreSupported(targets, Verdicts(targets))
  {
  }

  lemma SeenMeansRepeated(targets: seq<Target>, verdicts: seq<seq<Problem>>, n: nat, seen: set<string>)
    requires n < |targets| == |verdicts| && verdicts[n] == [] && SeenBefore(targets, verdicts, n, seen)
    requires AcceptableAreSupported(targets, verdicts)
    ensures Key(targets[n]) in seen <==> Repeats(targets, verdicts, n)
    ensures SeenBefore(targets, verdicts, n + 1, seen + {Key(targets[n])})
  {
    forall j | 0 <= j < n && verdicts[j] == []
      ensures Key(targets[j]) == Key(targets[n]) <==> SameDestination(targets[j], targets[n])
    {
      KeyIsInjective(targets[j], targets[n]);
    }
  }

  // ---- what the reports mean ----

  /** An acceptable target before `i` has its destination. */
  predicate Repeated(targets: seq<Target>, i: nat)
    requires i < |targets|
  {
    exists j :: 0 <= j < i && Acceptable(targets[j]) && SameDestination(targets[j], targets[i])
  }

  predicate Justified(targets: seq<Target>, e: TargetError) {
    match e
    case NoTargets => targets == []
    case InvalidTarget(i, problems) => i < |targets| && !Acceptable(targets[i]) && Describes(problems, targets[i])
    case DuplicateTarget(i) => i < |targets| && Acceptable(targets[i]) && Repeated(targets, i)
  }

  predicate IsAbout(e: TargetError, i: nat) {
    !e.NoTargets? && e.index == i
  }

  /** Target `i` is reported exactly when it is not acceptable or repeats an acceptable one. */
  ghost predicate ReportedRight(targets: seq<Target>, errs: seq<TargetError>, i: nat)
    requires i < |targets|
  {
    (exists e :: e in errs && IsAbout(e, i)) <==> !Acceptable(targets[i]) || Repeated(targets, i)
  }

  /** Every error is justified, every target that deserves one has one, and they are in the order of
      the targets, one at most for each. */
  ghost predicate ReportsWell(targets: seq<Target>, errs: seq<TargetError>, n: nat)
    requires n <= |targets|
  {
    && (forall e :: e in errs ==> !e.NoTargets? && Justified(targets, e) && e.index < n)
    && (forall i: nat :: i < n ==> ReportedRight(targets, errs, i))
    && (forall p, q :: 0 <= p < q < |errs| ==> IndexOf(errs[p]) < IndexOf(errs[q]))
  }

  function IndexOf(e: TargetError): int {
    if e.NoTargets? then -1 else e.index
  }

  lemma ReportMeaning(targets: seq<Target>, i: nat)
    requires i < |targets|
    ensures var report := Report(targets, Verdicts(targets), i);
      && |report| <= 1
      && (report == [] <==> Acceptable(targets[i]) && !Repeated(targets, i))
      && (report != [] ==> IsAbout(report[0], i) && Justified(targets, report[0]))
  {
    var verdicts := Verdicts(targets);
    ProblemsMeaning(targets[i]);
    forall j | 0 <= j < i
      ensures verdicts[j] == [] <==> Acceptable(targets[j])
    {
      ProblemsMeaning(targets[j]);
    }
  }

  lemma {:induction false} ReportsMeaning(targets: seq<Target>, n: nat)
    requires n <= |targets|
    ensures ReportsWell(targets, Concat(Reports(targets, Verdicts(targets))[..n]), n)
  {
    if n > 0 {
      var reports := Reports(targets, Verdicts(targets));
      ReportsMeaning(targets, n - 1);
      ReportMeaning(targets, n - 1);
      assert reports[..n][..n - 1] == reports[..n - 1];
      OneMoreReport(targets, Concat(reports[..n - 1]), reports[n - 1], n - 1);
    }
  }

  lemma OneMoreReport(targets: seq<Target>, errs: seq<TargetError>, report: seq<TargetError>, n: nat)
    requires n < |targets| && ReportsWell(targets, errs, n) && |report| <= 1
    requires report == [] <==> Acceptable(targets[n]) && !Repeated(targets, n)
    requires report != [] ==> IsAbout(report[0], n) && Justified(targets, report[0])
    ensures ReportsWell(targets, errs + report, n + 1)
  {
    forall i: nat | i < n
      ensures ReportedRight(targets, errs + report, i)
    {
      assert ReportedRight(targets, errs, i);
      assert forall e :: e in errs + report && IsAbout(e, i) ==> e in errs;
    }
    if report != [] {
      assert report[0] in errs + report;
    }
  }

  /** The loop reports each target that is invalid or repeats an earlier valid destination, in
      order, and nothing else. */
  method ValidateTargets(targets: seq<Target>) returns (errs: seq<TargetError>)
    ensures errs == TargetErrors(targets)
    ensures if targets == [] then errs == [NoTargets] else ReportsWell(targets, errs, |targets|)
  {
    TargetErrorsMeaning(targets);
    errs := CollectErrors(targets);
  }

  lemma TargetErrorsMeaning(targets: seq<Target>)
    ensures if targets == [] then TargetErrors(targets) == [NoTargets]
            else ReportsWell(targets, TargetErrors(targets), |targets|)
  {
    var reports := Reports(targets, Verdicts(targets));
    if targets != [] {
      ReportsMeaning(targets, |targets|);
      assert reports[..|targets|] == reports;
      assert TargetErrors(targets) == Concat(reports);
    }
  }

  method CollectErrors(targets: seq<Target>) returns (errs: seq<TargetError>)
    ensures errs == TargetErrors(targets)
  {
    ghost var verdicts := Verdicts(targets);
    ghost var reports := Reports(targets, verdicts);
    VerdictsMeaning(targets);
    errs := [];
    if targets == [] {
      errs := errs + [NoTargets];
    }
    var seen: set<string> := {};
    var i := 0;
    while i < |targets|
      invariant i <= |targets|
      invariant SeenBefore(targets, verdicts, i, seen)
      invariant errs == NoneConfigured(targets) + Concat(reports[..i])
    {
      assert reports[..i + 1] == reports[..i] + [reports[i]];
      errs, seen := CheckTarget(targets, verdicts, i, errs, seen);
      i := i + 1;
    }
    assert reports[..i] == reports;
  }

  /** One turn of the loop. */
  method CheckTarget(targets: seq<Target>, ghost verdicts: seq<seq<Problem>>, i: nat,
                     errs: seq<TargetError>, seen: set<string>)
    returns (errs': seq<TargetError>, seen': set<string>)
    requires i < |targets| == |verdicts| && verdicts[i] == Problems(targets[i])
    requires AcceptableAreSupported(targets, verdicts) && SeenBefore(targets, verdicts, i, seen)
    ensures errs' == errs + Report(targets, verdicts, i)
    ensures SeenBefore(targets, verdicts, i + 1, seen')
  {
    var problems := ValidateTarget(targets[i]);
    if problems != [] {
      return errs + [InvalidTarget(i, problems)], seen;
    }
    SeenMeansRepeated(targets, verdicts, i, seen);
    var key := Key(targets[i]);
    errs' := errs;
    if key in seen {
      errs' := errs + [DuplicateTarget(i)];
    }
    seen' := seen + {key};
  }

  ghost predicate NoneRejected(verdicts: seq<seq<Problem>>, n: nat)
    requires n <= |verdicts|
  {
    forall i :: 0 <= i < n ==> verdicts[i] == []
  }

  ghost predicate Distinct(targets: seq<Target>, n: nat)
    requires n <= |targets|
  {
    forall i, j :: 0 <= i < j < n ==> !SameDestination(targets[i], targets[j])
  }

  lemma EmptyConcat<T>(s: seq<T>, t: seq<T>)
    ensures s + t == [] <==> s == [] && t == []
  {
    assert |s + t| == |s| + |t|;
  }

  lemma {:induction false} SilentConcat(reports: seq<seq<TargetError>>)
    ensures Concat(reports) == [] <==> forall i :: 0 <= i < |reports| ==> reports[i] == []
  {
    if reports != [] {
      SilentConcat(reports[..|reports| - 1]);
      EmptyConcat(Concat(reports[..|reports| - 1]), reports[|reports| - 1]);
    }
  }

  ghost predicate Silent(targets: seq<Target>, verdicts: seq<seq<Problem>>)
    requires |targets| == |verdicts|
  {
    forall i: nat :: i < |targets| ==> Report(targets, verdicts, i) == []
  }

  lemma SilentMeansDistinct(targets: seq<Target>, verdicts: seq<seq<Problem>>)
    requires |targets| == |verdicts| && Silent(targets, verdicts)
    ensures NoneRejected(verdicts, |targets|) && Distinct(targets, |targets|)
  {
    forall i: nat | i < |targets|
      ensures verdicts[i] == [] && !Repeats(targets, verdicts, i)
    {
      assert Report(targets, verdicts, i) == [];
    }
    forall i: nat, j: nat | i < j < |targets|
      ensures !SameDestination(targets[i], targets[j])
    {
      assert !Repeats(targets, verdicts, j);
    }
  }

  lemma DistinctMeansSilent(targets: seq<Target>, verdicts: seq<seq<Problem>>)
    requires |targets| == |verdicts|
    requires NoneRejected(verdicts, |targets|) && Distinct(targets, |targets|)
    ensures Silent(targets, verdicts)
  {
  }

  /** The configuration `ValidateServe` accepts, as far as targets go. */
  ghost predicate Accepted(targets: seq<Target>) {
    && targets != []
    && (forall i :: 0 <= i < |targets| ==> Acceptable(targets[i]))
    && Distinct(targets, |targets|)
  }

  lemma AcceptableVerdicts(targets: seq<Target>)
    ensures forall i :: 0 <= i < |targets| ==> (Verdicts(targets)[i] == [] <==> Acceptable(targets[i]))
  {
    forall i | 0 <= i < |targets|
      ensures Verdicts(targets)[i] == [] <==> Acceptable(targets[i])
    {
      ProblemsMeaning(targets[i]);
    }
  }

  /** The loop is silent exactly for non-empty lists of valid, pairwise different destinations. */
  lemma SilentMeansAccepted(targets: seq<Target>)
    ensures TargetErrors(targets) == [] <==> Accepted(targets)
  {
    var verdicts := Verdicts(targets);
    var reports := Reports(targets, verdicts);
    SilentConcat(reports);
    EmptyConcat(NoneConfigured(targets), Concat(reports));
    if TargetErrors(targets) == [] {
      forall i: nat | i < |targets|
        ensures Report(targets, verdicts, i) == []
      {
        assert reports[i] == [];
      }
      SilentMeansDistinct(targets, verdicts);
      AcceptableVerdicts(targets);
    }
    if Accepted(targets) {
      AcceptableVerdicts(targets);
      DistinctMeansSilent(targets, verdicts);
    }
  }

  /** With an accepted configuration one `Send` posts to each destination at most once, and every
      target type is one the sender knows. */
  lemma NoDoubleDelivery(states: seq<Queue>, actions: seq<Action>, k: nat, p: nat, r: nat)
    requires IsRun(states, actions) && k < |states| && Accepted(states[0].targets)
    requires p < r < |states[k].log| && states[k].log[p].caller == states[k].log[r].caller
    ensures states[k].log[p].index < |states[k].targets| && states[k].log[r].index < |states[k].targets|
    ensures !(states[k].log[p].api == states[k].log[r].api && states[k].log[p].id == states[k].log[r].id)
  {
    SerialisedDelivery(states, actions, k);
    Reachable(states, actions, k);
  }
}
