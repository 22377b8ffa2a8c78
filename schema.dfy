/** The validation schema of an `Email` (lib/modules/email.js:22-41): six
    required keys checked in this order, with `abortEarly: false`, so every
    failing key is reported. Joi's own e-mail grammar and the wording of its
    messages are not part of this model: they enter as the functions of a
    `Joi` value. */
module Schema {
  import opened Wrappers

  /** The six keys of the schema. */
  datatype Field = To | ToName | From | FromName | Subject | Body {
    /** The property name, which is also the violation's `path` and `context.key`. */
    function Key(): (k: string) {
      match this
      case To => "to"
      case ToName => "toName"
      case From => "from"
      case FromName => "fromName"
      case Subject => "subject"
      case Body => "body"
    }

    /** The position of the key in the schema, which is the order of the report. */
    function Rank(): (n: nat) {
      match this
      case To => 0
      case ToName => 1
      case From => 2
      case FromName => 3
      case Subject => 4
      case Body => 5
    }

    /** The rule each key carries after `required()`. */
    function Rule(): (r: Rule) {
      match this
      case To => EmailShape
      case From => EmailShape
      case ToName => NamePattern
      case FromName => NamePattern
      case Subject => NoRule
      case Body => NoRule
    }
  }

  /** What a key checks after `required()`: `email()`, the name pattern
      `regex(...)`, or nothing more. */
  datatype Rule = EmailShape | NamePattern | NoRule {
    /** The kind of the violation a failing rule reports. */
    function Reported(): (k: Kind)
      requires this != NoRule
      ensures k != Required && k != Empty
    {
      if EmailShape? then EmailRule else RegexRule
    }
  }

  /** The kind of a violation. `Required` for a key that is absent, `Empty`
      for the empty string (which every `Joi.string()` rejects unless it is
      explicitly allowed), and one kind per rule. */
  datatype Kind = Required | Empty | EmailRule | RegexRule {
    /** Joi's `type` string for the violation. */
    function Type(): (t: string) {
      match this
      case Required => "any.required"
      case Empty => "any.empty"
      case EmailRule => "string.email"
      case RegexRule => "string.regex.base"
    }
  }

  /** One entry of `error.details`: the key, the rule that failed and the
      offending value (`context.value`, which Joi leaves out for a missing key). */
  datatype Violation = Violation(field: Field, kind: Kind, value: Option<string>) {
    function Path(): (p: seq<string>) {
      [field.Key()]
    }
  }

  /** The error object `Joi.validate` returns when any key fails. */
  datatype ValidationError = ValidationError(details: seq<Violation>, message: string)

  /** The foreign parts of Joi: its e-mail address grammar and the text it
      writes into `error.message` for a list of violations. */
  datatype Joi = Joi(isEmail: string -> bool, describe: seq<Violation> -> string)

  /** The six values validated, `None` standing for `undefined`. */
  datatype EmailFields = EmailFields(
    to: Option<string>, toName: Option<string>,
    from: Option<string>, fromName: Option<string>,
    subject: Option<string>, body: Option<string>)
  {
    function Get(f: Field): (v: Option<string>) {
      match f
      case To => to
      case ToName => toName
      case From => from
      case FromName => fromName
      case Subject => subject
      case Body => body
    }
  }

  /** The character class `[a-zA-Z.\s]`, with `\s` as ECMAScript defines it:
      the white space and line terminator characters. */
  predicate IsNameChar(c: char) {
    || ('a' <= c <= 'z') || ('A' <= c <= 'Z') || c == '.'
    || c == '\t' || c == '\n' || c == '\U{000B}' || c == '\U{000C}' || c == '\r' || c == ' '
    || c == '\U{00A0}' || c == '\U{1680}' || ('\U{2000}' <= c <= '\U{200A}')
    || c == '\U{2028}' || c == '\U{2029}' || c == '\U{202F}' || c == '\U{205F}'
    || c == '\U{3000}' || c == '\U{FEFF}'
  }

  /** The regular expression `^[a-zA-Z.\s]*$`: every character is in the class. */
  predicate IsName(s: string) {
    forall i :: 0 <= i < |s| ==> IsNameChar(s[i])
  }

  /** The key's own rule, after `required()`, holds for the string `s`. */
  predicate RuleHolds(f: Field, s: string, isEmail: string -> bool) {
    && (f.Rule() == EmailShape ==> isEmail(s))
    && (f.Rule() == NamePattern ==> IsName(s))
  }

  /** Reference definition of a key passing: it is present, it is not the
      empty string and its value satisfies the key's rule. */
  predicate Passes(f: Field, value: Option<string>, isEmail: string -> bool) {
    value.Some? && value.value != "" && RuleHolds(f, value.value, isEmail)
  }

  /** The chain `string().required().<rule>()` applied to one key, with
      `abortEarly: false`: a missing value fails `required` and nothing else
      is tried; the empty string fails `string()` as `any.empty`, and the
      key's own rule is still applied to it, so an empty address is reported
      twice; any other value is judged by the key's rule alone. */
  function Check(f: Field, value: Option<string>, isEmail: string -> bool): (r: seq<Violation>)
    ensures r == [] <==> Passes(f, value, isEmail)
    ensures forall v :: v in r ==> v.field == f && v.value == value
    ensures value.None? ==> r == [Violation(f, Required, None)]
    ensures value.Some? ==> (Violation(f, Empty, value) in r <==> value.value == "")
    ensures value.Some? && f.Rule() != NoRule ==>
              (Violation(f, f.Rule().Reported(), value) in r <==> !RuleHolds(f, value.value, isEmail))
    ensures value.Some? ==> forall v :: v in r ==> v.kind == Empty || (f.Rule() != NoRule && v.kind == f.Rule().Reported())
    ensures |r| <= 2 && (|r| == 2 ==> r[0].kind == Empty)
  {
    match value
    case None => [Violation(f, Required, None)]
    case Some(s) =>
      var empty := if s == "" then [Violation(f, Empty, value)] else [];
      var rule := if RuleHolds(f, s, isEmail) then [] else [Violation(f, f.Rule().Reported(), value)];
      empty + rule
  }

  /** The number of keys in the schema. */
  const KeyCount: nat := 6

  /** The key at position `rank` of the schema. */
  function KeyAt(rank: nat): (f: Field)
    requires rank < KeyCount
    ensures f.Rank() == rank
  {
    if rank == 0 then To
    else if rank == 1 then ToName
    else if rank == 2 then From
    else if rank == 3 then FromName
    else if rank == 4 then Subject
    else Body
  }

  /** Visits the keys from position `k` on, in schema order and without
      stopping, collecting every violation of every key. */
  function Collect(k: nat, e: EmailFields, isEmail: string -> bool): (r: seq<Violation>)
    requires k <= KeyCount
    ensures forall v :: v in r ==> k <= v.field.Rank() && v in Check(v.field, e.Get(v.field), isEmail)
    ensures forall f: Field, v :: k <= f.Rank() && v in Check(f, e.Get(f), isEmail) ==> v in r
    ensures forall i, j :: 0 <= i < j < |r| ==> r[i].field.Rank() <= r[j].field.Rank()
    decreases KeyCount - k
  {
    if k == KeyCount then []
    else
      var rest := Collect(k + 1, e, isEmail);
      KeyAtRank(k);
      Check(KeyAt(k), e.Get(KeyAt(k)), isEmail) + rest
  }

  /** The key of rank `k` is the only one with that rank. */
  lemma KeyAtRank(k: nat)
    requires k < KeyCount
    ensures forall f: Field :: f.Rank() == k ==> f == KeyAt(k)
  {
  }

  /** `error.details` for the six values, in schema order. */
  function Violations(e: EmailFields, isEmail: string -> bool): (r: seq<Violation>)
    ensures forall v :: v in r ==> v in Check(v.field, e.Get(v.field), isEmail)
    ensures forall f: Field, v :: v in Check(f, e.Get(f), isEmail) ==> v in r
    ensures forall i, j :: 0 <= i < j < |r| ==> r[i].field.Rank() <= r[j].field.Rank()
  {
    Collect(0, e, isEmail)
  }

  /** One step of the walk: the report from position `k` is key `k`'s own
      entries followed by the report from the next position. */
  lemma CollectStep(k: nat, e: EmailFields, isEmail: string -> bool)
    requires k < KeyCount
    ensures Collect(k, e, isEmail) == Check(KeyAt(k), e.Get(KeyAt(k)), isEmail) + Collect(k + 1, e, isEmail)
  {
  }

  /** The report is each key's own entries, key after key in schema order. */
  lemma ViolationsUnfold(e: EmailFields, isEmail: string -> bool)
    ensures Violations(e, isEmail) ==
              Check(To, e.to, isEmail) + (Check(ToName, e.toName, isEmail)
              + (Check(From, e.from, isEmail) + (Check(FromName, e.fromName, isEmail)
              + (Check(Subject, e.subject, isEmail) + Check(Body, e.body, isEmail)))))
  {
    CollectStep(5, e, isEmail);
    assert Collect(6, e, isEmail) == [];
    assert Collect(5, e, isEmail) == Check(Body, e.body, isEmail);
    CollectStep(4, e, isEmail);
    CollectStep(3, e, isEmail);
    CollectStep(2, e, isEmail);
    CollectStep(1, e, isEmail);
    CollectStep(0, e, isEmail);
  }

  /** Every key present and non-empty, both addresses accepted by the e-mail
      grammar and both names made of letters, dots and white space. */
  predicate Valid(e: EmailFields, isEmail: string -> bool) {
    && e.to.Some? && e.to.value != "" && isEmail(e.to.value)
    && e.toName.Some? && e.toName.value != "" && IsName(e.toName.value)
    && e.from.Some? && e.from.value != "" && isEmail(e.from.value)
    && e.fromName.Some? && e.fromName.value != "" && IsName(e.fromName.value)
    && e.subject.Some? && e.subject.value != ""
    && e.body.Some? && e.body.value != ""
  }

  /** `Joi.validate(values, schema, { abortEarly: false }).error`: `None` for null. */
  function Validate(e: EmailFields, joi: Joi): (r: Option<ValidationError>)
    ensures r.None? <==> Valid(e, joi.isEmail)
    ensures r.Some? ==> r.value.details == Violations(e, joi.isEmail) && r.value.details != []
    ensures r.Some? ==> r.value.message == joi.describe(r.value.details)
  {
    var details := Violations(e, joi.isEmail);
    ValidIffAllPass(e, joi.isEmail);
    ViolationsEmpty(e, joi.isEmail);
    if details == [] then None else Some(ValidationError(details, joi.describe(details)))
  }

  /** `Valid` is the conjunction of every key passing. */
  lemma ValidIffAllPass(e: EmailFields, isEmail: string -> bool)
    ensures Valid(e, isEmail) <==> forall f: Field :: Passes(f, e.Get(f), isEmail)
  {
    if forall f: Field :: Passes(f, e.Get(f), isEmail) {
      assert Passes(To, e.Get(To), isEmail) && Passes(ToName, e.Get(ToName), isEmail);
      assert Passes(From, e.Get(From), isEmail) && Passes(FromName, e.Get(FromName), isEmail);
      assert Passes(Subject, e.Get(Subject), isEmail) && Passes(Body, e.Get(Body), isEmail);
    }
  }

  /** The report is empty exactly when every key passes. */
  lemma ViolationsEmpty(e: EmailFields, isEmail: string -> bool)
    ensures Violations(e, isEmail) == [] <==> forall f: Field :: Passes(f, e.Get(f), isEmail)
  {
    var r := Violations(e, isEmail);
    if r != [] {
      assert r[0] in r;
    }
    if exists f: Field :: !Passes(f, e.Get(f), isEmail) {
      var f: Field :| !Passes(f, e.Get(f), isEmail);
      var c := Check(f, e.Get(f), isEmail);
      assert c[0] in c;
    }
  }

  /** A missing key is reported as `any.required` with the key as its path,
      and the report has no other entry for it. */
  lemma MissingFieldRequired(e: EmailFields, isEmail: string -> bool, f: Field)
    requires e.Get(f).None?
    ensures Violation(f, Required, None) in Violations(e, isEmail)
    ensures Violation(f, Required, None).Path() == [f.Key()]
    ensures forall v :: v in Violations(e, isEmail) && v.field == f ==> v == Violation(f, Required, None)
  {
  }

  /** An empty string in any key is reported as `any.empty` carrying the
      value. An address key goes on to its e-mail rule and is reported a
      second time when the grammar rejects the empty string; the other keys
      have no further entry, since the name pattern matches the empty string. */
  lemma EmptyRejected(e: EmailFields, isEmail: string -> bool, f: Field)
    requires e.Get(f) == Some("")
    ensures Violation(f, Empty, Some("")) in Violations(e, isEmail)
    ensures f.Rule() == EmailShape ==>
              (Violation(f, EmailRule, Some("")) in Violations(e, isEmail) <==> !isEmail(""))
    ensures f.Rule() == EmailShape ==>
              forall v :: v in Violations(e, isEmail) && v.field == f ==>
                v == Violation(f, Empty, Some("")) || v == Violation(f, EmailRule, Some(""))
    ensures f.Rule() != EmailShape ==>
              forall v :: v in Violations(e, isEmail) && v.field == f ==> v == Violation(f, Empty, Some(""))
  {
    assert IsName("");
  }

  /** A name with a character outside `[a-zA-Z.\s]` is reported as a regex
      violation that carries the name. */
  lemma BadNameReported(e: EmailFields, isEmail: string -> bool, f: Field, i: nat)
    requires f == ToName || f == FromName
    requires e.Get(f).Some? && i < |e.Get(f).value| && !IsNameChar(e.Get(f).value[i])
    ensures Violation(f, RegexRule, e.Get(f)) in Violations(e, isEmail)
  {
    var value := e.Get(f);
    assert !IsName(value.value);
    assert f.Rule() == NamePattern && !RuleHolds(f, value.value, isEmail);
    assert Violation(f, RegexRule, value) in Check(f, value, isEmail);
  }

  /** What is reported about the other keys does not depend on the value of
      key `f`: changing one field leaves every other field's verdict alone. */
  lemma ViolationsLocal(e: EmailFields, e': EmailFields, isEmail: string -> bool, f: Field)
    requires forall g: Field :: g != f ==> e.Get(g) == e'.Get(g)
    ensures forall v: Violation :: v.field != f ==> (v in Violations(e, isEmail) <==> v in Violations(e', isEmail))
  {
    forall v: Violation | v.field != f
      ensures v in Violations(e, isEmail) <==> v in Violations(e', isEmail)
    {
      assert e.Get(v.field) == e'.Get(v.field);
    }
  }

  /** Validation does not stop at the first failure: when two keys fail, both
      are reported, and every entry of the earlier key of the schema comes
      before every entry of the later one. */
  lemma ReportsEveryFailure(e: EmailFields, isEmail: string -> bool, f: Field, g: Field)
    requires f.Rank() < g.Rank()
    requires !Passes(f, e.Get(f), isEmail) && !Passes(g, e.Get(g), isEmail)
    ensures Check(f, e.Get(f), isEmail)[0] in Violations(e, isEmail)
    ensures Check(g, e.Get(g), isEmail)[0] in Violations(e, isEmail)
    ensures forall i, j ::
              && 0 <= i < |Violations(e, isEmail)| && 0 <= j < |Violations(e, isEmail)|
              && Violations(e, isEmail)[i].field == f && Violations(e, isEmail)[j].field == g
              ==> i < j
  {
    var cf := Check(f, e.Get(f), isEmail);
    var cg := Check(g, e.Get(g), isEmail);
    assert cf[0] in cf && cg[0] in cg;
    var r := Violations(e, isEmail);
    forall i, j | 0 <= i < |r| && 0 <= j < |r| && r[i].field == f && r[j].field == g
      ensures i < j
    {
      assert r[i].field.Rank() < r[j].field.Rank();
    }
  }
}
