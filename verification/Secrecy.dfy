/**
 * What masking hides: neither the transcript, nor the stored rows, nor the model ever depend on it
 * (backend/fraud/services/privacy.py, backend/agents/session.py).
 */
module Secrecy {
  import opened Common
  import opened Json
  import opened Privacy
  import opened Sanitizer
  import opened Tools
  import opened Session

  // ---------------------------------------------------------------- what a mask shows

  /**
   * All that a masked text may tell: the ends of a phone number, the end of an identity number, the
   * first letter and the domain of an address; of a secret nothing. Texts too short to be one are shown.
   */
  function Shown(c: Category, s: string): (nat, string, string) {
    match c
    case Plain => (0, s, "")
    case Phone => if |s| < 8 then (|s|, s, "") else (|s|, s[..4], s[|s| - 4..])
    case NationalId => if |s| < 4 then (|s|, s, "") else (|s|, "", s[|s| - 4..])
    case Email =>
      var at := AtSign(s);
      if at == |s| then (0, s, "") else if at < 2 then (1, "", s[at + 1..]) else (2, s[..1], s[at + 1..])
    case Secret => (0, "", "")
  }

  /** Two texts look the same behind their masks exactly when the same is shown of them. */
  lemma MaskTellsWhatIsShownIff(c: Category, s: string, t: string)
    ensures MaskText(c, s) == MaskText(c, t) <==> Shown(c, s) == Shown(c, t)
  {
    match c
    case Plain =>
    case Phone => PhoneShows(s, t);
    case NationalId => NidShows(s, t);
    case Email => EmailShows(s, t);
    case Secret =>
  }

  lemma PhoneShows(s: string, t: string)
    ensures MaskPhone(s) == MaskPhone(t) <==> Shown(Phone, s) == Shown(Phone, t)
  {
    var m, k := MaskPhone(s), MaskPhone(t);
    assert |m| == |s| && |k| == |t|;
    if |s| == |t| >= 8 && m == k {
      assert m[..4] == s[..4] && k[..4] == t[..4];
      assert m[|s| - 4..] == s[|s| - 4..] && k[|t| - 4..] == t[|t| - 4..];
    }
  }

  lemma NidShows(s: string, t: string)
    ensures MaskNid(s) == MaskNid(t) <==> Shown(NationalId, s) == Shown(NationalId, t)
  {
    var m, k := MaskNid(s), MaskNid(t);
    assert |m| == |s| && |k| == |t|;
    if |s| == |t| >= 4 && m == k {
      assert m[|s| - 4..] == s[|s| - 4..] && k[|t| - 4..] == t[|t| - 4..];
    }
  }

  /** Where the '@' of a masked address stands, and what follows it. */
  lemma EmailParts(s: string)
    ensures var at, m := AtSign(s), MaskEmail(s);
      && (at == |s| ==> m == s && '@' !in m)
      && (at < |s| && at < 2 ==> |m| >= 2 && m[1] == '@' && m[0] == '*' && m[2..] == s[at + 1..])
      && (at < |s| && at >= 2 ==> |m| >= 5 && m[0] == s[0] && m[1] == '*' && m[4] == '@' && m[5..] == s[at + 1..])
  {
  }

  lemma EmailShows(s: string, t: string)
    ensures MaskEmail(s) == MaskEmail(t) <==> Shown(Email, s) == Shown(Email, t)
  {
    EmailParts(s);
    EmailParts(t);
    if 2 <= AtSign(s) < |s| {
      assert s[..1] == [s[0]];
    }
    if 2 <= AtSign(t) < |t| {
      assert t[..1] == [t[0]];
    }
  }

  const HIDDEN_FIELDS: seq<string> := [
    "password", "otp", "token", "secret", "passport", "bank_account", "bank_account_number", "credit_card",
    "selfie", "face_match_selfie"
  ]

  /** The values of these fields are never shown at all, however their names are capitalised. */
  lemma SecretsAreHidden(repr: Value -> string, key: string, v: Value, w: Value)
    requires Lower(key) in HIDDEN_FIELDS && !v.Null? && !w.Null?
    ensures MaskValue(repr, Name(key), v) == MaskValue(repr, Name(key), w)
  {
    var k := Lower(key);
    assert k != "phone" && k != "nid" && k != "email" && k != "national_id";
  }

  /** And these are shown in part. */
  lemma PartlyHidden(key: string)
    ensures Lower(key) == "phone" ==> CategoryOf(key) == Phone
    ensures Lower(key) in {"national_id", "nid"} ==> CategoryOf(key) == NationalId
    ensures Lower(key) == "email" ==> CategoryOf(key) == Email
  {
    var k := Lower(key);
    if k == "nid" || k == "national_id" {
      assert k != "phone" && k != "email";
    } else if k == "email" {
      assert k != "phone";
    }
  }

  // ---------------------------------------------------------------- trees that differ in what is hidden

  /** The same tree but for what masking hides, at every level. */
  predicate Alike(repr: Value -> string, v: Value, w: Value)
    decreases v
  {
    match v
    case Obj(fields) =>
      && w.Obj? && |w.fields| == |fields|
      && forall i :: 0 <= i < |fields| ==>
           && w.fields[i].0 == fields[i].0
           && var c := KeyCategory(fields[i].0);
           if c.Plain? then Alike(repr, fields[i].1, w.fields[i].1)
           else HiddenAlike(repr, c, fields[i].1, w.fields[i].1)
    case Arr(items) =>
      && w.Arr? && |w.items| == |items|
      && forall i :: 0 <= i < |items| ==> Alike(repr, items[i], w.items[i])
    case _ => v == w
  }

  predicate HiddenAlike(repr: Value -> string, c: Category, v: Value, w: Value) {
    && (v.Null? <==> w.Null?)
    && (!v.Null? ==> Shown(c, PyStr(repr, v)) == Shown(c, PyStr(repr, w)))
  }

  /** A field of alike trees is masked to alike values, equal ones when it is a sensitive field. */
  lemma MaskedAlike(repr: Value -> string, key: Key, v: Value, w: Value)
    requires if KeyCategory(key).Plain? then Alike(repr, v, w) else HiddenAlike(repr, KeyCategory(key), v, w)
    ensures if KeyCategory(key).Plain? then MaskValue(repr, key, v) == v && MaskValue(repr, key, w) == w
      else MaskValue(repr, key, v) == MaskValue(repr, key, w)
    ensures v.Null? <==> w.Null?
  {
    if !KeyCategory(key).Plain? {
      MaskTellsWhatIsShownIff(KeyCategory(key), PyStr(repr, v), PyStr(repr, w));
    }
  }

  /** Alike trees sanitise to the same tree, and raise alike. */
  lemma {:induction false} SanitizedHides(repr: Value -> string, v: Value, w: Value, depth: nat)
    requires Alike(repr, v, w)
    ensures SanitizedOutcome(repr, v, depth) == SanitizedOutcome(repr, w, depth)
    ensures Maskable(repr, v, depth) <==> Maskable(repr, w, depth)
    decreases v
  {
    if depth < MAX_DEPTH {
      match v
      case Obj(fields) => FieldsHide(repr, v, w, depth);
      case Arr(items) => ItemsHide(repr, v, w, depth);
      case _ =>
    }
  }

  /** What one field of two alike trees is sanitised to. */
  ghost predicate FieldHides(repr: Value -> string, key: Key, v: Value, w: Value, depth: nat) {
    var x, y := MaskValue(repr, key, v), MaskValue(repr, key, w);
    && (v.Null? <==> w.Null?)
    && SanitizedOutcome(repr, x, depth) == SanitizedOutcome(repr, y, depth)
    && (Maskable(repr, x, depth) <==> Maskable(repr, y, depth))
  }

  lemma {:induction false} FieldsHide(repr: Value -> string, v: Value, w: Value, depth: nat)
    requires Alike(repr, v, w) && v.Obj? && depth < MAX_DEPTH
    ensures SanitizedOutcome(repr, v, depth) == SanitizedOutcome(repr, w, depth)
    ensures Maskable(repr, v, depth) <==> Maskable(repr, w, depth)
    decreases v, 0
  {
    hide SanitizedOutcome, Maskable, MaskValue, HiddenAlike, KeyCategory;
    forall i | 0 <= i < |v.fields|
      ensures FieldHides(repr, v.fields[i].0, v.fields[i].1, w.fields[i].1, depth + 1)
    {
      MaskedAlike(repr, v.fields[i].0, v.fields[i].1, w.fields[i].1);
      if KeyCategory(v.fields[i].0).Plain? {
        SanitizedHides(repr, v.fields[i].1, w.fields[i].1, depth + 1);
      }
    }
    ObjectsHide(repr, v, w, depth);
  }

  lemma ObjectsHide(repr: Value -> string, v: Value, w: Value, depth: nat)
    requires depth < MAX_DEPTH && v.Obj? && w.Obj? && |v.fields| == |w.fields|
    requires forall i :: 0 <= i < |v.fields| ==>
      && w.fields[i].0 == v.fields[i].0
      && FieldHides(repr, v.fields[i].0, v.fields[i].1, w.fields[i].1, depth + 1)
    ensures SanitizedOutcome(repr, v, depth) == SanitizedOutcome(repr, w, depth)
    ensures Maskable(repr, v, depth) <==> Maskable(repr, w, depth)
  {
    hide MaskValue;
    var a, b := Take(v.fields, MAX_CHILDREN), Take(w.fields, MAX_CHILDREN);
    assert SanitizedFields(repr, a, depth) == SanitizedFields(repr, b, depth);
  }

  lemma {:induction false} ItemsHide(repr: Value -> string, v: Value, w: Value, depth: nat)
    requires Alike(repr, v, w) && v.Arr? && depth < MAX_DEPTH
    ensures SanitizedOutcome(repr, v, depth) == SanitizedOutcome(repr, w, depth)
    ensures Maskable(repr, v, depth) <==> Maskable(repr, w, depth)
    decreases v, 0
  {
    var a, b := Take(v.items, MAX_CHILDREN), Take(w.items, MAX_CHILDREN);
    forall i | 0 <= i < |v.items|
      ensures SanitizedOutcome(repr, v.items[i], depth + 1) == SanitizedOutcome(repr, w.items[i], depth + 1)
      ensures Maskable(repr, v.items[i], depth + 1) <==> Maskable(repr, w.items[i], depth + 1)
    {
      SanitizedHides(repr, v.items[i], w.items[i], depth + 1);
    }
    assert SanitizedItems(repr, a, depth) == SanitizedItems(repr, b, depth);
  }

  // ---------------------------------------------------------------- whole runs

  predicate AnswersAlike(repr: Value -> string, a: Attempt, b: Attempt) {
    if a.Returned? then b.Returned? && Alike(repr, a.result, b.result) else a == b
  }

  lemma GroundedAlike(repr: Value -> string, v: Value, w: Value)
    requires Alike(repr, v, w)
    ensures Alike(repr, Grounded(v), Grounded(w))
  {
    if v.Obj? {
      assert HasKey(v.fields, "ok") <==> HasKey(w.fields, "ok");
    } else {
      ErrorAlike(repr, "executor must return a dictionary envelope");
    }
  }

  lemma ErrorAlike(repr: Value -> string, text: string)
    ensures Alike(repr, ErrorEnvelope(text), ErrorEnvelope(text))
  {
  }

  lemma ExecutedAlike(repr: Value -> string, a: (Attempt, Attempt), b: (Attempt, Attempt))
    requires AnswersAlike(repr, a.0, b.0) && AnswersAlike(repr, a.1, b.1)
    ensures var e, f := Execute(a.0, a.1), Execute(b.0, b.1);
      if e.Envelope? then f.Envelope? && Alike(repr, e.value, f.value) else e == f
  {
    hide Grounded, ErrorEnvelope, Alike;
    if a.0.Returned? { GroundedAlike(repr, a.0.result, b.0.result); }
    if a.1.Returned? { GroundedAlike(repr, a.1.result, b.1.result); }
    forall text: string ensures Alike(repr, ErrorEnvelope(text), ErrorEnvelope(text)) {
      ErrorAlike(repr, text);
    }
  }

  lemma ReadCallHides(cfg: Config, tool: Tool, args: Value, a: (Attempt, Attempt), b: (Attempt, Attempt))
    requires AnswersAlike(cfg.formats.repr, a.0, b.0) && AnswersAlike(cfg.formats.repr, a.1, b.1)
    ensures ReadCall(cfg, tool, args, a) == ReadCall(cfg, tool, args, b)
  {
    hide SanitizedOutcome, Maskable, SanitizeDict, ErrorColumn, Execute, Alike;
    ExecutedAlike(cfg.formats.repr, a, b);
    var e, f := Execute(a.0, a.1), Execute(b.0, b.1);
    if e.Envelope? {
      SanitizedHides(cfg.formats.repr, e.value, f.value, 0);
    }
  }

  /** Two worlds outside that differ only in hidden parts of what executors return. */
  ghost predicate SameButHidden(cfg: Config, o: Oracle, o': Oracle) {
    && o'.response == o.response && o'.elapsedMs == o.elapsedMs && o'.proposal == o.proposal
    && forall turn: nat ::
         && AnswersAlike(cfg.formats.repr, o.attempts(turn).0, o'.attempts(turn).0)
         && AnswersAlike(cfg.formats.repr, o.attempts(turn).1, o'.attempts(turn).1)
  }

  lemma TurnHides(cfg: Config, o: Oracle, o': Oracle, row: RunRow, l: LoopState)
    requires SameButHidden(cfg, o, o')
    ensures Turn(cfg, o, row, l) == Turn(cfg, o', row, l)
  {
    hide ReadCall, Exchanged, PlanToolCall, IncrementalCost, SanitizeDict, AnswersAlike;
    var r := o.response(l.count.turns);
    if r.Reply? && r.success && r.data.ToolCall? && PlanOf(cfg, r.data).Read? {
      var tool, turn := PlanOf(cfg, r.data).tool, l.count.turns;
      ReadCallHides(cfg, tool, Arguments(r.data), o.attempts(turn), o'.attempts(turn));
    }
  }

  /**
   * What masking hides in what executors return changes nothing in a run: the same transcript, the same
   * messages to the model, the same stored calls and the same ending.
   */
  lemma {:induction false} RunHides(cfg: Config, o: Oracle, o': Oracle, row: RunRow, l: LoopState)
    requires SameButHidden(cfg, o, o')
    ensures RunLoop(cfg, o, row, l) == RunLoop(cfg, o', row, l)
    decreases Max(0, cfg.limits.maxTurns - l.count.turns)
  {
    hide Turn, AnswersAlike;
    TurnHides(cfg, o, o', row, l);
    if Guard(cfg, o, l.count).None? && Turn(cfg, o, row, l).Continue? {
      TurnAdvances(cfg, o, row, l);
      RunHides(cfg, o, o', row, Turn(cfg, o, row, l).loop);
    }
  }
}
