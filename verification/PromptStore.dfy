/** The versioned prompt registry (backend/ai_intelligence/services.py). */
module PromptStore {
  import opened Common
  import opened PromptTemplate

  datatype VersionStatus = Active | Inactive | Deprecated

  datatype Version = Version(number: nat, template: string, defs: Definitions, isActive: bool, status: VersionStatus)

  /** The versions of each prompt, in order of creation. */
  type Prompts = map<string, seq<Version>>

  function NewVersion(number: nat, template: string, defs: Definitions): Version {
    Version(number, template, defs, false, Inactive)
  }

  function MaxNumber(vs: seq<Version>): nat {
    if vs == [] then 0 else Max(MaxNumber(vs[..|vs| - 1]), vs[|vs| - 1].number)
  }

  /** `create_prompt`; None when the key exists. */
  function CreatePrompt(ps: Prompts, key: string, template: string, defs: Definitions): Option<Prompts> {
    if key in ps then None else Some(ps[key := [NewVersion(1, template, defs)]])
  }

  /** `create_prompt_version`; None when the prompt does not exist. */
  function CreateVersion(ps: Prompts, key: string, template: string, defs: Definitions): Option<Prompts> {
    if key !in ps then None
    else Some(ps[key := ps[key] + [NewVersion(MaxNumber(ps[key]) + 1, template, defs)]])
  }

  predicate HasVersion(vs: seq<Version>, number: nat) {
    exists i :: 0 <= i < |vs| && vs[i].number == number
  }

  /** All active rows of the prompt are switched off, then the target is switched on. */
  function ActivateVersion(v: Version, number: nat): Version {
    if v.number == number then v.(isActive := true, status := Active)
    else if v.isActive then v.(isActive := false, status := Inactive)
    else v
  }

  function ActivatedVersions(vs: seq<Version>, number: nat): seq<Version> {
    seq(|vs|, i requires 0 <= i < |vs| => ActivateVersion(vs[i], number))
  }

  function Activate(ps: Prompts, key: string, number: nat): Option<Prompts> {
    if key !in ps || !HasVersion(ps[key], number) then None
    else Some(ps[key := ActivatedVersions(ps[key], number)])
  }

  /** The first active row in the model's ordering, highest version first. */
  function ActiveIndex(vs: seq<Version>): (r: Option<nat>)
    ensures r.Some? ==> r.value < |vs| && vs[r.value].isActive
    ensures r.None? <==> forall i :: 0 <= i < |vs| ==> !vs[i].isActive
  {
    if vs == [] then None
    else if vs[|vs| - 1].isActive then Some(|vs| - 1)
    else ActiveIndex(vs[..|vs| - 1])
  }

  /** `deactivate_prompt_version`; the flag says whether a version was deactivated. */
  function Deactivate(ps: Prompts, key: string): (Prompts, bool) {
    if key !in ps then (ps, false)
    else match ActiveIndex(ps[key])
      case None => (ps, false)
      case Some(i) => (ps[key := ps[key][i := ps[key][i].(isActive := false, status := Inactive)]], true)
  }

  /** The highest version number below n, or 0. */
  function PreviousNumber(vs: seq<Version>, n: nat): nat {
    if vs == [] then 0
    else Max(PreviousNumber(vs[..|vs| - 1], n), if vs[|vs| - 1].number < n then vs[|vs| - 1].number else 0)
  }

  predicate HasPrevious(vs: seq<Version>, n: nat) {
    exists i :: 0 <= i < |vs| && vs[i].number < n
  }

  /** `rollback_prompt`; None when nothing is active or nothing precedes it. */
  function Rollback(ps: Prompts, key: string): Option<Prompts> {
    if key !in ps then None
    else match ActiveIndex(ps[key])
      case None => None
      case Some(i) =>
        var active := ps[key][i].number;
        if !HasPrevious(ps[key], active) then None
        else Activate(ps, key, PreviousNumber(ps[key], active))
  }

  /** `render_prompt`. */
  function RenderPrompt(word: char -> bool, ps: Prompts, key: string, context: map<string, string>): Rendering {
    if key !in ps then NoActiveVersion
    else match ActiveIndex(ps[key])
      case None => NoActiveVersion
      case Some(i) => Render(word, ps[key][i].template, ps[key][i].defs, context)
  }

  // ---------------------------------------------------------------- the registry object

  class PromptRegistry {
    var prompts: Prompts

    constructor ()
      ensures prompts == map[]
    {
      prompts := map[];
    }

    method Create(key: string, template: string, defs: Definitions) returns (ok: bool)
      modifies this
      ensures ok == CreatePrompt(old(prompts), key, template, defs).Some?
      ensures prompts == if ok then CreatePrompt(old(prompts), key, template, defs).value else old(prompts)
    {
      if key in prompts { return false; }
      prompts := prompts[key := [NewVersion(1, template, defs)]];
      ok := true;
    }

    method AddVersion(key: string, template: string, defs: Definitions) returns (ok: bool)
      modifies this
      ensures ok == CreateVersion(old(prompts), key, template, defs).Some?
      ensures prompts == if ok then CreateVersion(old(prompts), key, template, defs).value else old(prompts)
    {
      if key !in prompts { return false; }
      prompts := prompts[key := prompts[key] + [NewVersion(MaxNumber(prompts[key]) + 1, template, defs)]];
      ok := true;
    }

    method ActivateNumber(key: string, number: nat) returns (ok: bool)
      modifies this
      ensures ok == Activate(old(prompts), key, number).Some?
      ensures prompts == if ok then Activate(old(prompts), key, number).value else old(prompts)
    {
      if key !in prompts || !HasVersion(prompts[key], number) { return false; }
      prompts := prompts[key := ActivatedVersions(prompts[key], number)];
      ok := true;
    }

    method DeactivateActive(key: string) returns (done: bool)
      modifies this
      ensures (prompts, done) == Deactivate(old(prompts), key)
    {
      if key !in prompts { return false; }
      var active := ActiveIndex(prompts[key]);
      if active.None? { return false; }
      var vs := prompts[key];
      prompts := prompts[key := vs[active.value := vs[active.value].(isActive := false, status := Inactive)]];
      done := true;
    }

    method RollbackActive(key: string) returns (ok: bool)
      modifies this
      ensures ok == Rollback(old(prompts), key).Some?
      ensures prompts == if ok then Rollback(old(prompts), key).value else old(prompts)
    {
      if key !in prompts { return false; }
      var active := ActiveIndex(prompts[key]);
      if active.None? { return false; }
      var number := prompts[key][active.value].number;
      if !HasPrevious(prompts[key], number) { return false; }
      ok := ActivateNumber(key, PreviousNumber(prompts[key], number));
    }
  }

  // ---------------------------------------------------------------- what every operation keeps

  /** Versions are 1..n, at most one is active, and flag and status agree. */
  ghost predicate Kept(vs: seq<Version>) {
    && |vs| >= 1
    && (forall i :: 0 <= i < |vs| ==> vs[i].number == i + 1)
    && (forall i :: 0 <= i < |vs| ==> (vs[i].isActive <==> vs[i].status == Active))
    && (forall i, j :: 0 <= i < j < |vs| ==> !(vs[i].isActive && vs[j].isActive))
  }

  ghost predicate AllKept(ps: Prompts) {
    forall key :: key in ps ==> Kept(ps[key])
  }

  /** No operation marks a version deprecated, although the status exists. */
  ghost predicate NoneDeprecated(ps: Prompts) {
    forall key, i :: key in ps && 0 <= i < |ps[key]| ==> ps[key][i].status != Deprecated
  }

  ghost predicate SameContent(before: seq<Version>, after: seq<Version>) {
    && |before| <= |after|
    && forall i :: 0 <= i < |before| ==>
         && after[i].number == before[i].number
         && after[i].template == before[i].template
         && after[i].defs == before[i].defs
  }

  /** Versions are only ever appended, and their content never changes. */
  ghost predicate ContentKept(before: Prompts, after: Prompts) {
    forall key :: key in before ==> key in after && SameContent(before[key], after[key])
  }

  datatype Step =
    | CreateStep(key: string, template: string, defs: Definitions)
    | VersionStep(key: string, template: string, defs: Definitions)
    | ActivateStep(key: string, number: nat)
    | DeactivateStep(key: string)
    | RollbackStep(key: string)

  function OrSame(ps: Prompts, r: Option<Prompts>): Prompts {
    if r.Some? then r.value else ps
  }

  function StepPrompts(ps: Prompts, s: Step): Prompts {
    match s
    case CreateStep(key, t, d) => OrSame(ps, CreatePrompt(ps, key, t, d))
    case VersionStep(key, t, d) => OrSame(ps, CreateVersion(ps, key, t, d))
    case ActivateStep(key, n) => OrSame(ps, Activate(ps, key, n))
    case DeactivateStep(key) => Deactivate(ps, key).0
    case RollbackStep(key) => OrSame(ps, Rollback(ps, key))
  }

  function RunPrompts(ps: Prompts, steps: seq<Step>): Prompts
    decreases |steps|
  {
    if steps == [] then ps else RunPrompts(StepPrompts(ps, steps[0]), steps[1..])
  }

  lemma {:induction false} MaxNumberOfKept(vs: seq<Version>)
    requires forall i :: 0 <= i < |vs| ==> vs[i].number == i + 1
    ensures MaxNumber(vs) == |vs|
  {
    if vs != [] {
      MaxNumberOfKept(vs[..|vs| - 1]);
    }
  }

  lemma {:induction false} PreviousOfKept(vs: seq<Version>, n: nat)
    requires forall i :: 0 <= i < |vs| ==> vs[i].number == i + 1
    ensures PreviousNumber(vs, n) == Max(0, Min(|vs|, n - 1))
  {
    if vs != [] {
      PreviousOfKept(vs[..|vs| - 1], n);
    }
  }

  lemma ActivationKeeps(vs: seq<Version>, number: nat)
    requires Kept(vs) && 1 <= number <= |vs|
    ensures Kept(ActivatedVersions(vs, number)) && SameContent(vs, ActivatedVersions(vs, number))
    ensures ActiveIndex(ActivatedVersions(vs, number)) == Some(number - 1)
  {
    var after := ActivatedVersions(vs, number);
    assert after[number - 1].isActive;
  }

  lemma RollbackIsActivation(ps: Prompts, key: string)
    requires AllKept(ps)
    ensures Rollback(ps, key) ==
      if key !in ps || ActiveIndex(ps[key]).None? || ActiveIndex(ps[key]).value == 0 then None
      else Activate(ps, key, ActiveIndex(ps[key]).value)
  {
    if key in ps && ActiveIndex(ps[key]).Some? {
      var vs, i := ps[key], ActiveIndex(ps[key]).value;
      PreviousOfKept(vs, vs[i].number);
      if i > 0 {
        assert vs[0].number < vs[i].number;
      }
    }
  }

  lemma ReplacingKeepsAll(ps: Prompts, key: string, vs: seq<Version>)
    requires AllKept(ps) && Kept(vs) && (key in ps ==> SameContent(ps[key], vs))
    ensures AllKept(ps[key := vs]) && ContentKept(ps, ps[key := vs])
  {
    hide Kept;
    forall k | k in ps ensures SameContent(ps[k], ps[key := vs][k]) {
      if k != key {
        assert ps[key := vs][k] == ps[k];
      }
    }
  }

  lemma ActivateKeepsAll(ps: Prompts, key: string, number: nat)
    requires AllKept(ps)
    ensures var after := OrSame(ps, Activate(ps, key, number));
      AllKept(after) && ContentKept(ps, after)
  {
    hide ActivatedVersions;
    if Activate(ps, key, number).Some? {
      ActivationKeeps(ps[key], number);
      ReplacingKeepsAll(ps, key, ActivatedVersions(ps[key], number));
    } else {
      NothingChanges(ps);
    }
  }

  lemma NothingChanges(ps: Prompts)
    ensures ContentKept(ps, ps)
  {
  }

  lemma AppendingKeeps(vs: seq<Version>, template: string, defs: Definitions)
    requires Kept(vs)
    ensures var after := vs + [NewVersion(MaxNumber(vs) + 1, template, defs)];
      Kept(after) && SameContent(vs, after)
  {
    MaxNumberOfKept(vs);
  }

  lemma DeactivatingKeeps(vs: seq<Version>, i: nat)
    requires Kept(vs) && i < |vs|
    ensures var after := vs[i := vs[i].(isActive := false, status := Inactive)];
      Kept(after) && SameContent(vs, after)
  {
  }

  lemma StepKeeps(ps: Prompts, s: Step)
    requires AllKept(ps)
    ensures AllKept(StepPrompts(ps, s)) && ContentKept(ps, StepPrompts(ps, s))
  {
    hide Activate;
    hide SameContent;
    hide MaxNumber;
    hide Rollback;
    NothingChanges(ps);
    match s
    case CreateStep(key, t, d) =>
      if key !in ps {
        ReplacingKeepsAll(ps, key, [NewVersion(1, t, d)]);
      }
    case VersionStep(key, t, d) =>
      if key in ps {
        AppendingKeeps(ps[key], t, d);
        ReplacingKeepsAll(ps, key, ps[key] + [NewVersion(MaxNumber(ps[key]) + 1, t, d)]);
      }
    case ActivateStep(key, n) => ActivateKeepsAll(ps, key, n);
    case DeactivateStep(key) =>
      if key in ps && ActiveIndex(ps[key]).Some? {
        var i := ActiveIndex(ps[key]).value;
        DeactivatingKeeps(ps[key], i);
        ReplacingKeepsAll(ps, key, ps[key][i := ps[key][i].(isActive := false, status := Inactive)]);
      }
    case RollbackStep(key) =>
      RollbackIsActivation(ps, key);
      if Rollback(ps, key).Some? {
        ActivateKeepsAll(ps, key, ActiveIndex(ps[key]).value);
      }
  }

  lemma StepDeprecatesNone(ps: Prompts, s: Step)
    requires NoneDeprecated(ps)
    ensures NoneDeprecated(StepPrompts(ps, s))
  {
    hide MaxNumber, PreviousNumber, HasVersion, HasPrevious;
  }

  /**
   * Over any sequence of operations versions stay 1..n with fixed content, at most one is active, and
   * none becomes deprecated.
   */
  lemma {:induction false} RegistryInvariant(ps: Prompts, steps: seq<Step>)
    requires AllKept(ps)
    ensures AllKept(RunPrompts(ps, steps)) && ContentKept(ps, RunPrompts(ps, steps))
    ensures NoneDeprecated(ps) ==> NoneDeprecated(RunPrompts(ps, steps))
    decreases |steps|
  {
    hide StepPrompts, AllKept, NoneDeprecated;
    if steps != [] {
      StepKeeps(ps, steps[0]);
      if NoneDeprecated(ps) {
        StepDeprecatesNone(ps, steps[0]);
      }
      RegistryInvariant(StepPrompts(ps, steps[0]), steps[1..]);
    }
  }

  // ---------------------------------------------------------------- rollback

  /** The active version number, 0 when none is active. */
  function ActiveNumber(ps: Prompts, key: string): nat {
    if key in ps && ActiveIndex(ps[key]).Some? then ActiveIndex(ps[key]).value + 1 else 0
  }

  /** A rollback succeeds exactly when a version above the first is active, and moves down by one. */
  lemma RollbackStepsDown(ps: Prompts, key: string)
    requires AllKept(ps)
    ensures Rollback(ps, key).Some? <==> ActiveNumber(ps, key) > 1
    ensures Rollback(ps, key).Some? ==>
      ActiveNumber(Rollback(ps, key).value, key) == ActiveNumber(ps, key) - 1 && AllKept(Rollback(ps, key).value)
  {
    RollbackIsActivation(ps, key);
    if ActiveNumber(ps, key) > 1 {
      var i := ActiveIndex(ps[key]).value;
      assert ps[key][i - 1].number == i;
      ActivationKeeps(ps[key], i);
    }
  }

  /** k rollbacks in a row, or None as soon as one fails. */
  function Rollbacks(ps: Prompts, key: string, k: nat): Option<Prompts> {
    if k == 0 then Some(ps)
    else match Rollbacks(ps, key, k - 1)
      case None => None
      case Some(r) => Rollback(r, key)
  }

  /** From active version v exactly the first v - 1 rollbacks in a row succeed. */
  lemma {:induction false} RollbacksInARow(ps: Prompts, key: string, k: nat)
    requires AllKept(ps) && ActiveNumber(ps, key) > 0
    ensures Rollbacks(ps, key, k).Some? <==> k < ActiveNumber(ps, key)
    ensures Rollbacks(ps, key, k).Some? ==>
      AllKept(Rollbacks(ps, key, k).value)
        && ActiveNumber(Rollbacks(ps, key, k).value, key) == ActiveNumber(ps, key) - k
  {
    hide AllKept;
    hide Rollback;
    if k > 0 {
      RollbacksInARow(ps, key, k - 1);
      if Rollbacks(ps, key, k - 1).Some? {
        RollbackStepsDown(Rollbacks(ps, key, k - 1).value, key);
      }
    }
  }

  /** Activating version n and rolling back lands on n - 1, whatever was active before. */
  lemma RollbackAfterActivate(ps: Prompts, key: string, n: nat)
    requires AllKept(ps) && key in ps && 2 <= n <= |ps[key]|
    ensures Activate(ps, key, n).Some? && Rollback(Activate(ps, key, n).value, key).Some?
    ensures ActiveNumber(Rollback(Activate(ps, key, n).value, key).value, key) == n - 1
  {
    assert ps[key][n - 1].number == n;
    ActivationKeeps(ps[key], n);
    ActivateKeepsAll(ps, key, n);
    RollbackStepsDown(Activate(ps, key, n).value, key);
  }

  lemma RenderedByActive(word: char -> bool, ps: Prompts, qs: Prompts, key: string, context: map<string, string>)
    requires key in ps && key in qs && ContentKept(ps, qs)
    requires ActiveNumber(ps, key) == ActiveNumber(qs, key) > 0
    ensures RenderPrompt(word, qs, key, context) == RenderPrompt(word, ps, key, context)
  {
  }

  /** Activating v + 1 and rolling back renders exactly as v did. */
  lemma RollbackRestoresRendering(word: char -> bool, ps: Prompts, key: string, context: map<string, string>)
    requires AllKept(ps) && key in ps && 0 < ActiveNumber(ps, key) < |ps[key]|
    ensures var v := ActiveNumber(ps, key);
      && Activate(ps, key, v + 1).Some?
      && Rollback(Activate(ps, key, v + 1).value, key).Some?
      && RenderPrompt(word, Rollback(Activate(ps, key, v + 1).value, key).value, key, context)
           == RenderPrompt(word, ps, key, context)
  {
    hide AllKept;
    hide RenderPrompt;
    hide Activate;
    hide Rollback;
    hide ActiveIndex;
    hide SameContent;
    var v := ActiveNumber(ps, key);
    RollbackAfterActivate(ps, key, v + 1);
    StepKeeps(ps, ActivateStep(key, v + 1));
    var mid := Activate(ps, key, v + 1).value;
    StepKeeps(mid, RollbackStep(key));
    var back := Rollback(mid, key).value;
    ContentKeptTwice(ps, mid, back);
    RenderedByActive(word, ps, back, key, context);
  }

  lemma ContentKeptTwice(a: Prompts, b: Prompts, c: Prompts)
    requires ContentKept(a, b) && ContentKept(b, c)
    ensures ContentKept(a, c)
  {
    forall key | key in a ensures key in c && SameContent(a[key], c[key]) {
      assert SameContent(a[key], b[key]) && SameContent(b[key], c[key]);
    }
  }

  /** In a store that the operations built, activating v + 1 and rolling back restores the very rows. */
  lemma RollbackRestoresRows(steps: seq<Step>, key: string)
    requires var ps := RunPrompts(map[], steps);
      key in ps && 0 < ActiveNumber(ps, key) < |ps[key]|
    ensures var ps := RunPrompts(map[], steps);
      var mid := Activate(ps, key, ActiveNumber(ps, key) + 1);
      && mid.Some?
      && Rollback(mid.value, key).Some?
      && Rollback(mid.value, key).value[key] == ps[key]
  {
    hide RunPrompts, Activate, Rollback, ActiveNumber, AllKept;
    EmptyIsKept();
    RegistryInvariant(map[], steps);
    RollbackRestoresRowsIff(RunPrompts(map[], steps), key);
  }

  lemma EmptyIsKept()
    ensures AllKept(map[]) && NoneDeprecated(map[])
  {
  }

  /**
   * In any store, what could keep the rows from coming back is a deprecated v + 1, whose status
   * activation overwrites.
   */
  lemma RollbackRestoresRowsIff(ps: Prompts, key: string)
    requires AllKept(ps) && key in ps && 0 < ActiveNumber(ps, key) < |ps[key]|
    ensures var v := ActiveNumber(ps, key);
      && Activate(ps, key, v + 1).Some?
      && Rollback(Activate(ps, key, v + 1).value, key).Some?
      && (Rollback(Activate(ps, key, v + 1).value, key).value[key] == ps[key] <==> ps[key][v].status != Deprecated)
  {
    hide ActivatedVersions;
    hide Kept;
    hide PreviousNumber;
    hide Rollback;
    var v := ActiveNumber(ps, key);
    var vs := ps[key];
    RollbackAfterActivate(ps, key, v + 1);
    var mid := Activate(ps, key, v + 1).value;
    ActivateKeepsAll(ps, key, v + 1);
    RollbackIsActivation(mid, key);
    ActivationKeeps(vs, v + 1);
    ThereAndBack(vs, v);
  }

  lemma ThereAndBack(vs: seq<Version>, v: nat)
    requires Kept(vs) && 0 < v < |vs| && vs[v - 1].isActive
    ensures ActivatedVersions(ActivatedVersions(vs, v + 1), v) == vs <==> vs[v].status != Deprecated
  {
    var back := ActivatedVersions(ActivatedVersions(vs, v + 1), v);
    assert !vs[v].isActive;
    assert back[v] == vs[v].(isActive := false, status := Inactive);
    if vs[v].status != Deprecated {
      forall i | 0 <= i < |vs| ensures back[i] == vs[i] {
        if i != v - 1 && i != v {
          assert !vs[i].isActive;
        }
      }
      assert back == vs;
    }
  }

  predicate SomeActive(ps: Prompts, key: string) {
    key in ps && exists i :: 0 <= i < |ps[key]| && ps[key][i].isActive
  }

  /** Deactivating reports whether something was active, and leaves nothing active under the key. */
  lemma DeactivatingTells(ps: Prompts, key: string)
    requires AllKept(ps)
    ensures var (after, ok) := Deactivate(ps, key);
      && (ok <==> SomeActive(ps, key)) && (!ok ==> after == ps) && !SomeActive(after, key)
      && forall other :: other != key ==>
           (other in after <==> other in ps) && (other in ps ==> after[other] == ps[other])
  {
    if SomeActive(ps, key) {
      assert Kept(ps[key]);
    }
  }

  /** A key renders nothing exactly when no version of it is active. */
  lemma RendersNothingIff(word: char -> bool, ps: Prompts, key: string, context: map<string, string>)
    ensures RenderPrompt(word, ps, key, context).NoActiveVersion? <==> !SomeActive(ps, key)
  {
    if key in ps && ActiveIndex(ps[key]).Some? {
      assert ps[key][ActiveIndex(ps[key]).value].isActive;
    }
  }
}
