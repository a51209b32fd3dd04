/** Field masking (backend/fraud/services/privacy.py). */
module Privacy {
  import opened Common
  import opened Json

  datatype Category = Plain | Phone | NationalId | Email | Secret

  /** How `mask_value` treats a (lower-cased) field name. */
  function CategoryOf(key: string): Category {
    var k := Lower(key);
    if k == "phone" then Phone
    else if k == "national_id" || k == "nid" then NationalId
    else if k == "email" then Email
    else if k in SENSITIVE_FIELDS then Secret
    else Plain
  }

  const SENSITIVE_FIELDS: set<string> := {
    "phone", "national_id", "nid", "passport", "bank_account", "bank_account_number",
    "credit_card", "selfie", "face_match_selfie", "password", "otp", "token", "secret", "email"
  }

  function MaskPhone(p: string): string {
    if |p| < 8 then p else p[..4] + Repeat('*', |p| - 8) + p[|p| - 4..]
  }

  function MaskNid(n: string): string {
    if |n| < 4 then n else Repeat('*', |n| - 4) + n[|n| - 4..]
  }

  /** Position of the first '@', or the length when there is none. */
  function AtSign(s: string): (i: nat)
    ensures i <= |s|
    ensures i < |s| ==> s[i] == '@'
    ensures forall j :: 0 <= j < i ==> s[j] != '@'
  {
    if s == "" then 0 else if s[0] == '@' then 0 else 1 + AtSign(s[1..])
  }

  function MaskEmail(e: string): string {
    var at := AtSign(e);
    if at == |e| then e
    else if at <= 1 then "*@" + e[at + 1..]
    else [e[0]] + "***@" + e[at + 1..]
  }

  function MaskText(c: Category, s: string): string {
    match c
    case Plain => s
    case Phone => MaskPhone(s)
    case NationalId => MaskNid(s)
    case Email => MaskEmail(s)
    case Secret => "***"
  }

  /** Only string keys can name a sensitive field. */
  function KeyCategory(key: Key): Category {
    if key.Name? then CategoryOf(key.text) else Plain
  }

  /** `mask_value`, which raises instead on an odd key with a value. */
  function MaskValue(repr: Value -> string, key: Key, v: Value): Value {
    if v.Null? then Null
    else if KeyCategory(key).Plain? then v
    else Str(MaskText(KeyCategory(key), PyStr(repr, v)))
  }

  /** `sanitize_dict`: one level of masking over a dict's fields. */
  function SanitizeDict(repr: Value -> string, v: Value): Value
    requires v.Obj?
  {
    Obj(seq(|v.fields|, i requires 0 <= i < |v.fields| =>
      (v.fields[i].0, MaskValue(repr, v.fields[i].0, v.fields[i].1))))
  }

  /** A masked text, cut to any n >= 8 characters, is left alone by a second masking. */
  lemma MaskTextSettles(c: Category, s: string, n: nat)
    requires !c.Plain? && 8 <= n
    ensures MaskText(c, Take(MaskText(c, s), n)) == Take(MaskText(c, s), n)
  {
    var m := MaskText(c, s);
    var t := Take(m, n);
    match c
    case Phone =>
      if |s| >= 8 {
        assert forall i :: 0 <= i < |t| ==> MaskPhone(t)[i] == t[i];
        assert MaskPhone(t) == t;
      }
    case NationalId =>
      if |s| >= 4 {
        assert MaskNid(t) == t;
      }
    case Email => EmailSettles(s, n);
    case Secret =>
  }

  lemma EmailSettles(s: string, n: nat)
    requires 8 <= n
    ensures MaskEmail(Take(MaskEmail(s), n)) == Take(MaskEmail(s), n)
  {
    var at := AtSign(s);
    var m := MaskEmail(s);
    var t := Take(m, n);
    if at == |s| {
      assert forall j :: 0 <= j < |t| ==> t[j] != '@';
      assert AtSign(t) == |t|;
    } else if at <= 1 {
      assert t[0] == '*' && t[1] == '@';
      assert AtSign(t) == 1;
      assert MaskEmail(t) == "*@" + t[2..] == t;
    } else {
      assert s[0] != '@';
      assert t[0] == s[0] && t[1] == '*' && t[2] == '*' && t[3] == '*' && t[4] == '@';
      assert AtSign(t) == 4;
      assert MaskEmail(t) == [t[0]] + "***@" + t[5..] == t;
    }
  }

  /** Masking a dict twice is masking it once. */
  lemma SanitizeDictIdempotent(repr: Value -> string, v: Value)
    requires v.Obj?
    ensures SanitizeDict(repr, SanitizeDict(repr, v)) == SanitizeDict(repr, v)
  {
    var once := SanitizeDict(repr, v);
    forall i | 0 <= i < |v.fields|
      ensures MaskValue(repr, v.fields[i].0, once.fields[i].1) == once.fields[i].1
    {
      var key, x := v.fields[i].0, v.fields[i].1;
      if !x.Null? && !KeyCategory(key).Plain? {
        var m := MaskText(KeyCategory(key), PyStr(repr, x));
        MaskTextSettles(KeyCategory(key), PyStr(repr, x), |m| + 8);
        assert Take(m, |m| + 8) == m;
      }
    }
    var twice := SanitizeDict(repr, once);
    assert forall i :: 0 <= i < |v.fields| ==> twice.fields[i] == once.fields[i];
    assert twice.fields == once.fields;
  }
}
