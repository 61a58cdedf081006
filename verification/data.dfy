/**
 The feedback record and its validation rules (package `data`).

 `ValidateFeedback` is written exactly as the nine `Check` calls of the Go
 code. `Rules` is the same rule list written as a table, and the lemmas
 below first show that the two agree and then read every property of the
 validation off the table.
 */
module Data {
  import opened Validation

  /** Timestamp assigned by storage; `Unset` is Go's zero `time.Time`. */
  datatype Instant = Unset | At(unixNano: int)

  /** A submitted feedback record; `id` and `createdAt` are set only by storage. */
  datatype Feedback = Feedback(
    id: int,
    createdAt: Instant,
    fullname: string,
    subject: string,
    message: string,
    email: string)

  /** The four user-supplied fields. */
  datatype Field = Fullname | Subject | Email | Message

  /** The error-map key a field's checks record under. */
  function Key(f: Field): string {
    match f
    case Fullname => "fullname"
    case Subject => "subject"
    case Email => "email"
    case Message => "message"
  }

  const FieldKeys: set<string> := {"fullname", "subject", "email", "message"}

  function Value(fb: Feedback, f: Field): string {
    match f
    case Fullname => fb.fullname
    case Subject => fb.subject
    case Email => fb.email
    case Message => fb.message
  }

  lemma KeyInjective(f: Field, g: Field)
    ensures Key(f) == Key(g) <==> f == g
    ensures Key(f) in FieldKeys
  {
  }

  /** The field a field key belongs to. */
  function FieldOf(key: string): (f: Field)
    requires key in FieldKeys
    ensures Key(f) == key
  {
    if key == "fullname" then Fullname
    else if key == "subject" then Subject
    else if key == "email" then Email
    else Message
  }

  /** The predicate a rule applies to its field's value. */
  datatype Test = NotBlank | MaxLength(limit: int) | ValidEmail

  datatype Rule = Rule(field: Field, test: Test, message: string)

  const MustBeProvided := "must be provided"
  const InvalidEmail := "invalid email address"

  /** Each field's checks, in the order `ValidateFeedback` in package data applies them. */
  function FieldRules(f: Field): (rules: seq<Rule>)
    ensures forall i :: 0 <= i < |rules| ==> rules[i].field == f
  {
    match f
    case Fullname => [
      Rule(Fullname, NotBlank, MustBeProvided),
      Rule(Fullname, MaxLength(50), "must not be more than 50 bytes long")]
    case Subject => [
      Rule(Subject, NotBlank, MustBeProvided),
      Rule(Subject, MaxLength(50), "must not be more than 50 bytes long")]
    case Email => [
      Rule(Email, NotBlank, MustBeProvided),
      Rule(Email, ValidEmail, InvalidEmail),
      Rule(Email, MaxLength(100), "must not be more than 100 bytes long")]
    case Message => [
      Rule(Message, NotBlank, MustBeProvided),
      Rule(Message, MaxLength(500), "must not be more than 500 bytes long")]
  }

  /** The nine checks: the four fields' checks, one field after another. */
  const Rules: seq<Rule> := FieldRules(Fullname) + FieldRules(Subject) + FieldRules(Email) + FieldRules(Message)

  function Holds(prims: Primitives, t: Test, s: string): bool {
    match t
    case NotBlank => prims.notBlank(s)
    case MaxLength(n) => prims.maxLength(s, n)
    case ValidEmail => prims.isValidEmail(s)
  }

  predicate Passes(prims: Primitives, rule: Rule, fb: Feedback) {
    Holds(prims, rule.test, Value(fb, rule.field))
  }

  /** The Go code's rule sequence, one `Check` per line. */
  function ValidateFeedback(policy: Policy, prims: Primitives, v: Validator, fb: Feedback): (r: Validator)
    // when every check passes the validator is left as it was
    ensures && prims.notBlank(fb.fullname) && prims.maxLength(fb.fullname, 50)
            && prims.notBlank(fb.subject) && prims.maxLength(fb.subject, 50)
            && prims.notBlank(fb.email) && prims.isValidEmail(fb.email) && prims.maxLength(fb.email, 100)
            && prims.notBlank(fb.message) && prims.maxLength(fb.message, 500)
            ==> r == v
  {
    var v1 := Check(policy, v, prims.notBlank(fb.fullname), "fullname", "must be provided");
    var v2 := Check(policy, v1, prims.maxLength(fb.fullname, 50), "fullname", "must not be more than 50 bytes long");
    var v3 := Check(policy, v2, prims.notBlank(fb.subject), "subject", "must be provided");
    var v4 := Check(policy, v3, prims.maxLength(fb.subject, 50), "subject", "must not be more than 50 bytes long");
    var v5 := Check(policy, v4, prims.notBlank(fb.email), "email", "must be provided");
    var v6 := Check(policy, v5, prims.isValidEmail(fb.email), "email", "invalid email address");
    var v7 := Check(policy, v6, prims.maxLength(fb.email, 100), "email", "must not be more than 100 bytes long");
    var v8 := Check(policy, v7, prims.notBlank(fb.message), "message", "must be provided");
    Check(policy, v8, prims.maxLength(fb.message, 500), "message", "must not be more than 500 bytes long")
  }

  function Step(policy: Policy, prims: Primitives, v: Validator, fb: Feedback, rule: Rule): Validator {
    Check(policy, v, Passes(prims, rule, fb), Key(rule.field), rule.message)
  }

  /** Applies a rule list left to right. */
  function ApplyRules(policy: Policy, prims: Primitives, v: Validator, fb: Feedback, rules: seq<Rule>): Validator
    decreases |rules|
  {
    if rules == [] then v
    else ApplyRules(policy, prims, Step(policy, prims, v, fb, rules[0]), fb, rules[1..])
  }

  function IfFails(failed: bool, message: string): seq<string> {
    if failed then [message] else []
  }

  /** The messages of the rules in `rules` that check field `f` and fail, in order. */
  function Failures(prims: Primitives, fb: Feedback, rules: seq<Rule>, f: Field): seq<string>
    decreases |rules|
  {
    if rules == [] then []
    else
      IfFails(rules[0].field == f && !Passes(prims, rules[0], fb), rules[0].message)
      + Failures(prims, fb, rules[1..], f)
  }

  /** What a validator holds under `key` after a list of rules, stated per key through `Failures`. */
  ghost predicate ErrorsAt(policy: Policy, v: Validator, fs: seq<string>, key: string, r: Validator) {
    && (key in r.errors <==> key in v.errors || fs != [])
    && (key in r.errors ==>
          r.errors[key] == (match policy
                            case FirstWins => if key in v.errors then v.errors[key] else fs[0]
                            case LastWins => if fs != [] then fs[|fs| - 1] else v.errors[key]))
  }

  lemma {:induction false} ApplyRulesPerField(policy: Policy, prims: Primitives, v: Validator, fb: Feedback,
                                              rules: seq<Rule>, f: Field)
    ensures ErrorsAt(policy, v, Failures(prims, fb, rules, f), Key(f), ApplyRules(policy, prims, v, fb, rules))
    decreases |rules|
  {
    if rules != [] {
      var v1 := Step(policy, prims, v, fb, rules[0]);
      ApplyRulesPerField(policy, prims, v1, fb, rules[1..], f);
      StepPerField(policy, prims, v, fb, rules[0], f);
      var head := IfFails(rules[0].field == f && !Passes(prims, rules[0], fb), rules[0].message);
      var tail := Failures(prims, fb, rules[1..], f);
      ErrorsAtCompose(policy, v, head, v1, tail, Key(f), ApplyRules(policy, prims, v1, fb, rules[1..]));
    }
  }

  /** One rule, read per field. */
  lemma StepPerField(policy: Policy, prims: Primitives, v: Validator, fb: Feedback, rule: Rule, f: Field)
    ensures ErrorsAt(policy, v, IfFails(rule.field == f && !Passes(prims, rule, fb), rule.message), Key(f),
                     Step(policy, prims, v, fb, rule))
  {
    KeyInjective(rule.field, f);
  }

  /** Two stretches of rules, read per key, make one. */
  lemma ErrorsAtCompose(policy: Policy, v: Validator, fs1: seq<string>, v1: Validator, fs2: seq<string>,
                        key: string, r: Validator)
    requires ErrorsAt(policy, v, fs1, key, v1) && ErrorsAt(policy, v1, fs2, key, r)
    ensures ErrorsAt(policy, v, fs1 + fs2, key, r)
  {
    if fs1 != [] {
      assert (fs1 + fs2)[0] == fs1[0];
    }
    if fs2 == [] {
      assert fs1 + fs2 == fs1;
    } else {
      assert (fs1 + fs2)[|fs1 + fs2| - 1] == fs2[|fs2| - 1];
    }
  }

  /** A key that is not a field key keeps whatever it held. */
  lemma {:induction false} ApplyRulesKeepsOtherKeys(policy: Policy, prims: Primitives, v: Validator, fb: Feedback,
                                                    rules: seq<Rule>, key: string)
    requires key !in FieldKeys
    ensures ErrorsAt(policy, v, [], key, ApplyRules(policy, prims, v, fb, rules))
    decreases |rules|
  {
    if rules != [] {
      KeyInjective(rules[0].field, rules[0].field);
      ApplyRulesKeepsOtherKeys(policy, prims, Step(policy, prims, v, fb, rules[0]), fb, rules[1..], key);
    }
  }

  /** Applying a concatenation applies its parts one after the other. */
  lemma {:induction false} ApplyRulesAppend(policy: Policy, prims: Primitives, v: Validator, fb: Feedback,
                                            a: seq<Rule>, b: seq<Rule>)
    ensures ApplyRules(policy, prims, v, fb, a + b)
         == ApplyRules(policy, prims, ApplyRules(policy, prims, v, fb, a), fb, b)
    decreases |a|
  {
    if a != [] {
      assert (a + b)[1..] == a[1..] + b;
      ApplyRulesAppend(policy, prims, Step(policy, prims, v, fb, a[0]), fb, a[1..], b);
    } else {
      assert a + b == b;
    }
  }

  /** Applying the first two rules of a list, and then the rest. */
  lemma ApplyRulesTwo(policy: Policy, prims: Primitives, v: Validator, fb: Feedback, rules: seq<Rule>)
    requires |rules| >= 2
    ensures ApplyRules(policy, prims, v, fb, rules)
         == ApplyRules(policy, prims, Step(policy, prims, Step(policy, prims, v, fb, rules[0]), fb, rules[1]), fb, rules[2..])
  {
    assert rules[1..][1..] == rules[2..];
  }

  /** Each field's table rows, applied to any validator, are that field's literal checks. */
  lemma FieldRulesAreChecks(policy: Policy, prims: Primitives, w: Validator, fb: Feedback, f: Field)
    ensures ApplyRules(policy, prims, w, fb, FieldRules(f)) == (match f
      case Fullname =>
        var w1 := Check(policy, w, prims.notBlank(fb.fullname), "fullname", "must be provided");
        Check(policy, w1, prims.maxLength(fb.fullname, 50), "fullname", "must not be more than 50 bytes long")
      case Subject =>
        var w1 := Check(policy, w, prims.notBlank(fb.subject), "subject", "must be provided");
        Check(policy, w1, prims.maxLength(fb.subject, 50), "subject", "must not be more than 50 bytes long")
      case Email =>
        var w1 := Check(policy, w, prims.notBlank(fb.email), "email", "must be provided");
        var w2 := Check(policy, w1, prims.isValidEmail(fb.email), "email", "invalid email address");
        Check(policy, w2, prims.maxLength(fb.email, 100), "email", "must not be more than 100 bytes long")
      case Message =>
        var w1 := Check(policy, w, prims.notBlank(fb.message), "message", "must be provided");
        Check(policy, w1, prims.maxLength(fb.message, 500), "message", "must not be more than 500 bytes long"))
  {
    var rules := FieldRules(f);
    ApplyRulesTwo(policy, prims, w, fb, rules);
    if f == Email {
      assert rules[2..][1..] == [];
    } else {
      assert rules[2..] == [];
    }
  }

  /** The nine literal checks are the rule table applied in order. */
  lemma ValidateFeedbackFollowsTable(policy: Policy, prims: Primitives, v: Validator, fb: Feedback)
    ensures ValidateFeedback(policy, prims, v, fb) == ApplyRules(policy, prims, v, fb, Rules)
  {
    var fullname, subject, email, message := FieldRules(Fullname), FieldRules(Subject), FieldRules(Email), FieldRules(Message);
    ApplyRulesAppend(policy, prims, v, fb, fullname + subject + email, message);
    ApplyRulesAppend(policy, prims, v, fb, fullname + subject, email);
    ApplyRulesAppend(policy, prims, v, fb, fullname, subject);
    var w1 := ApplyRules(policy, prims, v, fb, fullname);
    var w2 := ApplyRules(policy, prims, w1, fb, subject);
    var w3 := ApplyRules(policy, prims, w2, fb, email);
    FieldRulesAreChecks(policy, prims, v, fb, Fullname);
    FieldRulesAreChecks(policy, prims, w1, fb, Subject);
    FieldRulesAreChecks(policy, prims, w2, fb, Email);
    FieldRulesAreChecks(policy, prims, w3, fb, Message);
  }

  /** The byte limit the table gives each field. */
  function Limit(f: Field): int {
    match f
    case Fullname => 50
    case Subject => 50
    case Email => 100
    case Message => 500
  }

  /**
   The messages of the table: every blank check, and only a blank check,
   says "must be provided"; the only syntax check is on the email and says
   "invalid email address"; every length check uses its field's limit.
   */
  lemma RuleTableShape()
    ensures |Rules| == 9
    ensures forall i :: 0 <= i < |Rules| ==> (Rules[i].test == NotBlank <==> Rules[i].message == MustBeProvided)
    ensures forall i :: 0 <= i < |Rules| && Rules[i].test == ValidEmail ==>
                          Rules[i].field == Email && Rules[i].message == InvalidEmail
    ensures forall i :: 0 <= i < |Rules| && Rules[i].test.MaxLength? ==> Rules[i].test.limit == Limit(Rules[i].field)
  {
  }

  /** Every field has a blank check and a length check at its limit. */
  lemma EveryFieldIsChecked(f: Field)
    ensures Rule(f, NotBlank, MustBeProvided) in Rules
    ensures exists m :: Rule(f, MaxLength(Limit(f)), m) in Rules
  {
    match f
    case Fullname =>
      assert Rules[0] == Rule(f, NotBlank, MustBeProvided);
      assert Rules[1] == Rule(f, MaxLength(Limit(f)), Rules[1].message);
    case Subject =>
      assert Rules[2] == Rule(f, NotBlank, MustBeProvided);
      assert Rules[3] == Rule(f, MaxLength(Limit(f)), Rules[3].message);
    case Email =>
      assert Rules[4] == Rule(f, NotBlank, MustBeProvided);
      assert Rules[6] == Rule(f, MaxLength(Limit(f)), Rules[6].message);
    case Message =>
      assert Rules[7] == Rule(f, NotBlank, MustBeProvided);
      assert Rules[8] == Rule(f, MaxLength(Limit(f)), Rules[8].message);
  }

  /** A failing rule contributes its message to its field's failures. */
  lemma {:induction false} FailingRuleIsReported(prims: Primitives, fb: Feedback, rules: seq<Rule>, i: nat)
    requires i < |rules| && !Passes(prims, rules[i], fb)
    ensures rules[i].message in Failures(prims, fb, rules, rules[i].field)
    decreases |rules|
  {
    if i > 0 {
      FailingRuleIsReported(prims, fb, rules[1..], i - 1);
    }
  }

  /** When every rule passes, no field collects a failure. */
  lemma {:induction false} PassingRulesReportNothing(prims: Primitives, fb: Feedback, rules: seq<Rule>, f: Field)
    requires forall i :: 0 <= i < |rules| ==> Passes(prims, rules[i], fb)
    ensures Failures(prims, fb, rules, f) == []
    decreases |rules|
  {
    if rules != [] {
      assert Passes(prims, rules[0], fb);
      PassingRulesReportNothing(prims, fb, rules[1..], f);
    }
  }

  /** A field's failures depend only on that field's value. */
  lemma {:induction false} FailuresAreLocal(prims: Primitives, fb1: Feedback, fb2: Feedback, rules: seq<Rule>, f: Field)
    requires Value(fb1, f) == Value(fb2, f)
    ensures Failures(prims, fb1, rules, f) == Failures(prims, fb2, rules, f)
    decreases |rules|
  {
    if rules != [] {
      FailuresAreLocal(prims, fb1, fb2, rules[1..], f);
    }
  }

  /**
   What `ValidateFeedback` leaves under each key, whichever the policy: a key
   is recorded exactly when it was already recorded or one of its rules
   fails; with first-wins the earliest message stays, with last-wins the
   latest failing rule's message replaces it.
   */
  lemma ValidateFeedbackErrors(policy: Policy, prims: Primitives, v: Validator, fb: Feedback, f: Field)
    ensures ErrorsAt(policy, v, Failures(prims, fb, Rules, f), Key(f), ValidateFeedback(policy, prims, v, fb))
  {
    ValidateFeedbackFollowsTable(policy, prims, v, fb);
    ApplyRulesPerField(policy, prims, v, fb, Rules, f);
  }

  /** Every key a check can record is one of fullname, subject, email, message. */
  lemma RecordedKeysAreFieldKeys(policy: Policy, prims: Primitives, v: Validator, fb: Feedback, key: string)
    requires key !in FieldKeys
    ensures key in ValidateFeedback(policy, prims, v, fb).errors <==> key in v.errors
    ensures key in v.errors ==> ValidateFeedback(policy, prims, v, fb).errors[key] == v.errors[key]
  {
    ValidateFeedbackFollowsTable(policy, prims, v, fb);
    ApplyRulesKeepsOtherKeys(policy, prims, v, fb, Rules, key);
  }

  /** A fresh validator stays valid exactly when all nine checks pass. */
  lemma ValidIffAllRulesPass(policy: Policy, prims: Primitives, fb: Feedback)
    ensures ValidData(ValidateFeedback(policy, prims, NewValidator(), fb))
        <==> forall i :: 0 <= i < |Rules| ==> Passes(prims, Rules[i], fb)
  {
    var v := NewValidator();
    var r := ValidateFeedback(policy, prims, v, fb);
    if forall i :: 0 <= i < |Rules| ==> Passes(prims, Rules[i], fb) {
      if r.errors != map[] {
        var k :| k in r.errors;
        if k in FieldKeys {
          var f := FieldOf(k);
          ValidateFeedbackErrors(policy, prims, v, fb, f);
          PassingRulesReportNothing(prims, fb, Rules, f);
        } else {
          RecordedKeysAreFieldKeys(policy, prims, v, fb, k);
        }
        assert false;
      }
    } else {
      var i :| 0 <= i < |Rules| && !Passes(prims, Rules[i], fb);
      FailingRuleIsReported(prims, fb, Rules, i);
      ValidateFeedbackErrors(policy, prims, v, fb, Rules[i].field);
      assert Key(Rules[i].field) in r.errors;
    }
  }

  /**
   The failure messages each field can collect, in the order they are
   checked: blank first, then (for the email) syntax, then length.
   */
  function FieldFailures(prims: Primitives, fb: Feedback, f: Field): seq<string> {
    match f
    case Fullname =>
      IfFails(!prims.notBlank(fb.fullname), MustBeProvided)
      + IfFails(!prims.maxLength(fb.fullname, 50), "must not be more than 50 bytes long")
    case Subject =>
      IfFails(!prims.notBlank(fb.subject), MustBeProvided)
      + IfFails(!prims.maxLength(fb.subject, 50), "must not be more than 50 bytes long")
    case Email =>
      IfFails(!prims.notBlank(fb.email), MustBeProvided)
      + IfFails(!prims.isValidEmail(fb.email), InvalidEmail)
      + IfFails(!prims.maxLength(fb.email, 100), "must not be more than 100 bytes long")
    case Message =>
      IfFails(!prims.notBlank(fb.message), MustBeProvided)
      + IfFails(!prims.maxLength(fb.message, 500), "must not be more than 500 bytes long")
  }

  /** Failures of a concatenation are the failures of its parts, in order. */
  lemma {:induction false} FailuresAppend(prims: Primitives, fb: Feedback, a: seq<Rule>, b: seq<Rule>, f: Field)
    ensures Failures(prims, fb, a + b, f) == Failures(prims, fb, a, f) + Failures(prims, fb, b, f)
    decreases |a|
  {
    if a != [] {
      assert (a + b)[1..] == a[1..] + b;
      FailuresAppend(prims, fb, a[1..], b, f);
    } else {
      assert a + b == b;
    }
  }

  /** Rules about other fields contribute nothing to a field's failures. */
  lemma {:induction false} FailuresOfOtherFields(prims: Primitives, fb: Feedback, rules: seq<Rule>, f: Field)
    requires forall i :: 0 <= i < |rules| ==> rules[i].field != f
    ensures Failures(prims, fb, rules, f) == []
    decreases |rules|
  {
    if rules != [] {
      assert rules[0].field != f;
      FailuresOfOtherFields(prims, fb, rules[1..], f);
    }
  }

  /** The table, read per field, gives exactly that field's own checks. */
  lemma FailuresPerField(prims: Primitives, fb: Feedback, f: Field)
    ensures Failures(prims, fb, Rules, f) == FieldFailures(prims, fb, f)
  {
    var fullname, subject, email, message := FieldRules(Fullname), FieldRules(Subject), FieldRules(Email), FieldRules(Message);
    FailuresAppend(prims, fb, fullname + subject + email, message, f);
    FailuresAppend(prims, fb, fullname + subject, email, f);
    FailuresAppend(prims, fb, fullname, subject, f);
    if f != Fullname { FailuresOfOtherFields(prims, fb, fullname, f); }
    if f != Subject { FailuresOfOtherFields(prims, fb, subject, f); }
    if f != Email { FailuresOfOtherFields(prims, fb, email, f); }
    if f != Message { FailuresOfOtherFields(prims, fb, message, f); }
    FailuresOfOwnRules(prims, fb, f);
  }

  /** The failures of a list's first row, then of the rest. */
  lemma FailuresHead(prims: Primitives, fb: Feedback, rules: seq<Rule>, f: Field)
    requires rules != [] && rules[0].field == f
    ensures Failures(prims, fb, rules, f)
         == IfFails(!Passes(prims, rules[0], fb), rules[0].message) + Failures(prims, fb, rules[1..], f)
  {
  }

  /** A field's own rows fail in the order they are listed. */
  lemma FailuresOfOwnRules(prims: Primitives, fb: Feedback, f: Field)
    ensures Failures(prims, fb, FieldRules(f), f) == FieldFailures(prims, fb, f)
  {
    var own := FieldRules(f);
    FailuresHead(prims, fb, own, f);
    FailuresHead(prims, fb, own[1..], f);
    if f == Email {
      FailuresHead(prims, fb, own[1..][1..], f);
      assert own[1..][1..][1..] == [];
    } else {
      assert own[1..][1..] == [];
    }
  }

  /**
   A blank field is always reported; with first-wins the message is
   "must be provided", because each field's blank check comes first.
   */
  lemma BlankFieldIsReported(policy: Policy, prims: Primitives, fb: Feedback, f: Field)
    requires !prims.notBlank(Value(fb, f))
    ensures Key(f) in ValidateFeedback(policy, prims, NewValidator(), fb).errors
    ensures policy == FirstWins ==> ValidateFeedback(policy, prims, NewValidator(), fb).errors[Key(f)] == MustBeProvided
  {
    FailuresPerField(prims, fb, f);
    ValidateFeedbackErrors(policy, prims, NewValidator(), fb, f);
  }

  /** A field longer than its limit is always reported, and then nothing can be valid. */
  lemma OverLongFieldIsReported(policy: Policy, prims: Primitives, fb: Feedback, f: Field)
    requires !prims.maxLength(Value(fb, f), Limit(f))
    ensures Key(f) in ValidateFeedback(policy, prims, NewValidator(), fb).errors
    ensures !ValidData(ValidateFeedback(policy, prims, NewValidator(), fb))
  {
    FailuresPerField(prims, fb, f);
    ValidateFeedbackErrors(policy, prims, NewValidator(), fb, f);
  }

  /**
   A non-blank email that fails the syntax check is reported as "invalid
   email address" under first-wins; under last-wins the same holds when the
   email is within its length limit.
   */
  lemma BadEmailIsReported(policy: Policy, prims: Primitives, fb: Feedback)
    requires !prims.isValidEmail(fb.email)
    requires policy == FirstWins ==> prims.notBlank(fb.email)
    requires policy == LastWins ==> prims.maxLength(fb.email, 100)
    ensures "email" in ValidateFeedback(policy, prims, NewValidator(), fb).errors
    ensures ValidateFeedback(policy, prims, NewValidator(), fb).errors["email"] == InvalidEmail
  {
    BadEmailFailures(prims, fb);
    FailuresPerField(prims, fb, Email);
    ValidateFeedbackErrors(policy, prims, NewValidator(), fb, Email);
    SurvivingMessage(policy, NewValidator(), FieldFailures(prims, fb, Email), Key(Email),
                     ValidateFeedback(policy, prims, NewValidator(), fb), InvalidEmail);
  }

  /** Where the syntax failure sits in the email's failures. */
  lemma BadEmailFailures(prims: Primitives, fb: Feedback)
    requires !prims.isValidEmail(fb.email)
    ensures var fs := FieldFailures(prims, fb, Email);
            && fs != []
            && (prims.notBlank(fb.email) ==> fs[0] == InvalidEmail)
            && (prims.maxLength(fb.email, 100) ==> fs[|fs| - 1] == InvalidEmail)
  {
  }

  /** The message a fresh validator ends up holding under a key, read off its failures. */
  lemma SurvivingMessage(policy: Policy, v: Validator, fs: seq<string>, key: string, r: Validator, m: string)
    requires v.errors == map[] && ErrorsAt(policy, v, fs, key, r)
    requires fs != [] && m == (if policy == FirstWins then fs[0] else fs[|fs| - 1])
    ensures key in r.errors && r.errors[key] == m
  {
  }

  /** What a field's key ends up holding depends only on that field's own value. */
  lemma FieldChecksAreLocal(policy: Policy, prims: Primitives, v: Validator, fb1: Feedback, fb2: Feedback, f: Field)
    requires Value(fb1, f) == Value(fb2, f)
    ensures Key(f) in ValidateFeedback(policy, prims, v, fb1).errors
        <==> Key(f) in ValidateFeedback(policy, prims, v, fb2).errors
    ensures Key(f) in ValidateFeedback(policy, prims, v, fb1).errors
        ==> ValidateFeedback(policy, prims, v, fb1).errors[Key(f)] == ValidateFeedback(policy, prims, v, fb2).errors[Key(f)]
  {
    FailuresAreLocal(prims, fb1, fb2, Rules, f);
    ValidateFeedbackErrors(policy, prims, v, fb1, f);
    ValidateFeedbackErrors(policy, prims, v, fb2, f);
  }

  /** The storage-assigned `id` and `createdAt` are never consulted. */
  lemma IdentityIsNotConsulted(policy: Policy, prims: Primitives, v: Validator, fb: Feedback, id: int, createdAt: Instant)
    ensures ValidateFeedback(policy, prims, v, fb.(id := id, createdAt := createdAt)) == ValidateFeedback(policy, prims, v, fb)
  {
  }
}
