/** The checkout page (src/pages/Checkout.js): field validation, card-number
    formatting, the order payload built from the cart, and the submit sequence
    that clears the cart only once the order has been created. */
module Checkout {
  import opened Wrappers
  import opened Text
  import opened CartLines

  // ---------------------------------------------------------------------------
  // The form

  datatype Field =
    | FirstName | LastName | Email | Phone | Address | City | State | ZipCode
    | CardNumber | CardName | ExpiryDate | Cvv

  const AllFields: set<Field> :=
    {FirstName, LastName, Email, Phone, Address, City, State, ZipCode,
     CardNumber, CardName, ExpiryDate, Cvv}

  datatype CheckoutForm = CheckoutForm(
    firstName: string, lastName: string, email: string, phone: string,
    address: string, city: string, state: string, zipCode: string,
    cardNumber: string, cardName: string, expiryDate: string, cvv: string)

  const EmptyForm := CheckoutForm("", "", "", "", "", "", "", "", "", "", "", "")

  /** `formData[name]`. */
  function Value(form: CheckoutForm, fld: Field): string {
    match fld
    case FirstName => form.firstName
    case LastName => form.lastName
    case Email => form.email
    case Phone => form.phone
    case Address => form.address
    case City => form.city
    case State => form.state
    case ZipCode => form.zipCode
    case CardNumber => form.cardNumber
    case CardName => form.cardName
    case ExpiryDate => form.expiryDate
    case Cvv => form.cvv
  }

  /** `{ ...prev, [name]: value }`: one field replaced, the others kept. */
  function With(form: CheckoutForm, fld: Field, v: string): (r: CheckoutForm)
    ensures Value(r, fld) == v
    ensures forall other | other != fld :: Value(r, other) == Value(form, other)
  {
    match fld
    case FirstName => form.(firstName := v)
    case LastName => form.(lastName := v)
    case Email => form.(email := v)
    case Phone => form.(phone := v)
    case Address => form.(address := v)
    case City => form.(city := v)
    case State => form.(state := v)
    case ZipCode => form.(zipCode := v)
    case CardNumber => form.(cardNumber := v)
    case CardName => form.(cardName := v)
    case ExpiryDate => form.(expiryDate := v)
    case Cvv => form.(cvv := v)
  }

  function RequiredMessage(fld: Field): string {
    match fld
    case FirstName => "First name is required"
    case LastName => "Last name is required"
    case Email => "Email is required"
    case Phone => "Phone is required"
    case Address => "Address is required"
    case City => "City is required"
    case State => "State is required"
    case ZipCode => "Zip code is required"
    case CardNumber => "Card number is required"
    case CardName => "Cardholder name is required"
    case ExpiryDate => "Expiry date is required"
    case Cvv => "CVV is required"
  }

  const InvalidEmailMessage := "Email is invalid"
  const CardLengthMessage := "Card number must be 16 digits"

  // ---------------------------------------------------------------------------
  // The e-mail pattern `\S+@\S+\.\S+`, searched anywhere in the string

  predicate NoSpaceIn(s: string, lo: int, hi: int)
    requires 0 <= lo <= hi <= |s|
  {
    forall k | lo <= k < hi :: !IsSpace(s[k])
  }

  /** An '@' at `at` with a non-space character before it. */
  ghost predicate AtSignAt(s: string, at: int) {
    0 < at < |s| && s[at] == '@' && !IsSpace(s[at - 1])
  }

  /** A '.' at `dot`, after a non-empty run of non-space characters that
      follows position `at`, with a non-space character after it. */
  ghost predicate DotAt(s: string, at: int, dot: int) {
    0 <= at && at + 1 < dot && dot + 1 < |s| && s[dot] == '.'
    && !IsSpace(s[dot + 1]) && NoSpaceIn(s, at + 1, dot)
  }

  /** What the pattern accepts: a shortest match `x@y.z` somewhere in `s`. */
  ghost predicate EmailShaped(s: string) {
    exists at, dot :: AtSignAt(s, at) && DotAt(s, at, dot)
  }

  /** Scans the non-space run that starts at `k` for a suitable '.'. */
  function DotFrom(s: string, at: nat, k: nat): bool
    requires at < k <= |s|
    decreases |s| - k
  {
    if k + 1 >= |s| || IsSpace(s[k]) then false
    else (s[k] == '.' && k > at + 1 && !IsSpace(s[k + 1])) || DotFrom(s, at, k + 1)
  }

  /** Tries every '@' from position `i` on. */
  function AtFrom(s: string, i: nat): bool
    requires i <= |s|
    decreases |s| - i
  {
    if i + 1 >= |s| then false
    else (0 < i && s[i] == '@' && !IsSpace(s[i - 1]) && DotFrom(s, i, i + 1)) || AtFrom(s, i + 1)
  }

  /** `/\S+@\S+\.\S+/.test(s)`. */
  function MatchesEmailPattern(s: string): bool {
    AtFrom(s, 0)
  }

  lemma {:induction false} DotFromIff(s: string, at: nat, k: nat)
    requires at < k <= |s| && NoSpaceIn(s, at + 1, k)
    ensures DotFrom(s, at, k) <==> exists dot :: k <= dot && DotAt(s, at, dot)
    decreases |s| - k
  {
    if k + 1 >= |s| || IsSpace(s[k]) {
      assert forall dot :: k <= dot ==> !DotAt(s, at, dot);
    } else {
      DotFromIff(s, at, k + 1);
      if s[k] == '.' && k > at + 1 && !IsSpace(s[k + 1]) {
        assert DotAt(s, at, k);
      }
      forall dot | k <= dot && DotAt(s, at, dot)
        ensures (s[k] == '.' && k > at + 1 && !IsSpace(s[k + 1])) || DotFrom(s, at, k + 1)
      {
        if dot > k {
          assert k + 1 <= dot;
        }
      }
    }
  }

  lemma {:induction false} AtFromIff(s: string, i: nat)
    requires i <= |s|
    ensures AtFrom(s, i) <==> exists at, dot :: i <= at && AtSignAt(s, at) && DotAt(s, at, dot)
    decreases |s| - i
  {
    if i + 1 >= |s| {
      assert forall at, dot :: i <= at && AtSignAt(s, at) ==> !DotAt(s, at, dot);
    } else {
      AtFromIff(s, i + 1);
      if 0 < i && s[i] == '@' && !IsSpace(s[i - 1]) {
        DotFromIff(s, i, i + 1);
        assert AtSignAt(s, i);
      }
      forall at, dot | i <= at && AtSignAt(s, at) && DotAt(s, at, dot)
        ensures AtFrom(s, i)
      {
        if at == i {
          DotFromIff(s, i, i + 1);
        }
      }
    }
  }

  /** The scan decides exactly the pattern. */
  lemma MatchesEmailPatternIff(s: string)
    ensures MatchesEmailPattern(s) <==> EmailShaped(s)
  {
    AtFromIff(s, 0);
  }

  // ---------------------------------------------------------------------------
  // validateForm

  /** The rule for one field: blank (what `trim()` empties) is "required";
      a non-blank e-mail must match the pattern; a non-blank card number must
      measure 16 UTF-16 units once whitespace is removed. Expiry date and CVV
      are only checked for presence. */
  function FieldError(form: CheckoutForm, fld: Field): Option<string> {
    var v := Value(form, fld);
    if Blank(v) then Some(RequiredMessage(fld))
    else if fld == Email && !MatchesEmailPattern(v) then Some(InvalidEmailMessage)
    else if fld == CardNumber && Utf16Length(RemoveSpaces(v)) != 16 then Some(CardLengthMessage)
    else None
  }

  /** One field's verdict applied to the map being built: an entry is added
      for a failure, nothing for a pass. */
  function Entry(errors: map<Field, string>, fld: Field, verdict: Option<string>): map<Field, string> {
    match verdict
    case Some(message) => errors[fld := message]
    case None => errors
  }

  /** The entries a rule yields on the fields in `done`: one per failing
      field, holding that field's message. */
  function Collected(rule: Field -> Option<string>, done: set<Field>): map<Field, string> {
    map fld | fld in done && rule(fld).Some? :: rule(fld).value
  }

  /** Applying one more field's verdict extends the collected entries by
      that field. */
  lemma CollectStep(rule: Field -> Option<string>, done: set<Field>, fld: Field)
    ensures Entry(Collected(rule, done), fld, rule(fld)) == Collected(rule, done + {fld})
  {
  }

  const ShippingFields: set<Field> :=
    {FirstName, LastName, Email, Phone, Address, City, State, ZipCode}

  /** The verdicts on the shipping fields, in the page's order. */
  function CollectShipping(rule: Field -> Option<string>): map<Field, string> {
    var m := Entry(map[], FirstName, rule(FirstName));
    var m := Entry(m, LastName, rule(LastName));
    var m := Entry(m, Email, rule(Email));
    var m := Entry(m, Phone, rule(Phone));
    var m := Entry(m, Address, rule(Address));
    var m := Entry(m, City, rule(City));
    var m := Entry(m, State, rule(State));
    Entry(m, ZipCode, rule(ZipCode))
  }

  /** The verdicts on the payment fields added to `m`, in the page's order. */
  function CollectPayment(rule: Field -> Option<string>, m: map<Field, string>): map<Field, string> {
    var m := Entry(m, CardNumber, rule(CardNumber));
    var m := Entry(m, CardName, rule(CardName));
    var m := Entry(m, ExpiryDate, rule(ExpiryDate));
    Entry(m, Cvv, rule(Cvv))
  }

  /** The map built from a verdict per field, visiting the fields in the
      page's order. */
  function Collect(rule: Field -> Option<string>): map<Field, string> {
    CollectPayment(rule, CollectShipping(rule))
  }

  lemma CollectShippingAll(rule: Field -> Option<string>)
    ensures CollectShipping(rule) == Collected(rule, ShippingFields)
  {
    ghost var done: set<Field> := {};
    assert Collected(rule, done) == map[];
    CollectStep(rule, done, FirstName);
    done := done + {FirstName};
    CollectStep(rule, done, LastName);
    done := done + {LastName};
    CollectStep(rule, done, Email);
    done := done + {Email};
    CollectStep(rule, done, Phone);
    done := done + {Phone};
    CollectStep(rule, done, Address);
    done := done + {Address};
    CollectStep(rule, done, City);
    done := done + {City};
    CollectStep(rule, done, State);
    done := done + {State};
    CollectStep(rule, done, ZipCode);
    done := done + {ZipCode};
    assert done == ShippingFields;
  }

  /** Visiting every field once collects each field's verdict, whatever the
      verdicts are. */
  lemma CollectAll(rule: Field -> Option<string>)
    ensures Collect(rule) == Collected(rule, AllFields)
  {
    CollectShippingAll(rule);
    ghost var done: set<Field> := ShippingFields;
    CollectStep(rule, done, CardNumber);
    done := done + {CardNumber};
    CollectStep(rule, done, CardName);
    done := done + {CardName};
    CollectStep(rule, done, ExpiryDate);
    done := done + {ExpiryDate};
    CollectStep(rule, done, Cvv);
    done := done + {Cvv};
    assert done == AllFields;
  }

  /** The error map the page's rules produce. */
  function ErrorMap(form: CheckoutForm): map<Field, string> {
    Collect(fld => FieldError(form, fld))
  }

  /** The map has an entry for a field exactly when that field fails its
      rule, and the entry is that rule's message. */
  lemma ErrorMapLookup(form: CheckoutForm, fld: Field)
    ensures fld in ErrorMap(form) <==> FieldError(form, fld).Some?
    ensures fld in ErrorMap(form) ==> ErrorMap(form)[fld] == FieldError(form, fld).value
  {
    CollectAll(fld => FieldError(form, fld));
    assert fld in AllFields;
  }

  /** Every field passes its rule. */
  ghost predicate Submittable(form: CheckoutForm) {
    && !Blank(form.firstName) && !Blank(form.lastName)
    && EmailShaped(form.email)
    && !Blank(form.phone) && !Blank(form.address) && !Blank(form.city)
    && !Blank(form.state) && !Blank(form.zipCode)
    && Utf16Length(RemoveSpaces(form.cardNumber)) == 16
    && !Blank(form.cardName) && !Blank(form.expiryDate) && !Blank(form.cvv)
  }

  /** A field of only whitespace counts as missing, whichever field it is. */
  lemma BlankFieldIsMissing(form: CheckoutForm, fld: Field, v: string)
    requires Blank(v)
    ensures fld in ErrorMap(With(form, fld, v))
    ensures ErrorMap(With(form, fld, v))[fld] == RequiredMessage(fld)
  {
    ErrorMapLookup(With(form, fld, v), fld);
  }

  /** The e-mail field gets exactly one verdict: "required" when blank,
      "invalid" when it has no `x@y.z` part. */
  lemma EmailVerdict(form: CheckoutForm)
    ensures Email in ErrorMap(form) <==> Blank(form.email) || !EmailShaped(form.email)
    ensures Email in ErrorMap(form) ==>
      (ErrorMap(form)[Email] == RequiredMessage(Email) <==> Blank(form.email))
    ensures Email in ErrorMap(form) ==>
      (ErrorMap(form)[Email] == InvalidEmailMessage <==> !Blank(form.email))
  {
    ErrorMapLookup(form, Email);
    MatchesEmailPatternIff(form.email);
  }

  /** Sixteen UTF-16 units without whitespace are never blank, so the
      card-number field is accepted exactly when the length test passes: no
      checksum and no digit check. */
  lemma CardNumberVerdict(form: CheckoutForm)
    ensures CardNumber !in ErrorMap(form) <==> Utf16Length(RemoveSpaces(form.cardNumber)) == 16
  {
    CardNumberPasses(form);
    ErrorMapLookup(form, CardNumber);
  }

  /** A blank card number has nothing left once whitespace is removed, so
      the card rule reduces to the length test. */
  lemma CardNumberPasses(form: CheckoutForm)
    ensures FieldError(form, CardNumber).None? <==> Utf16Length(RemoveSpaces(form.cardNumber)) == 16
  {
    if Blank(form.cardNumber) {
      assert RemoveSpaces(form.cardNumber) == [];
    }
  }

  /** An empty error map means every rule passed. */
  lemma EmptyErrorsMeanSubmittable(form: CheckoutForm)
    requires ErrorMap(form) == map[]
    ensures Submittable(form)
  {
    MatchesEmailPatternIff(form.email);
    CardNumberVerdict(form);
    ErrorMapLookup(form, FirstName);
    ErrorMapLookup(form, LastName);
    ErrorMapLookup(form, Email);
    ErrorMapLookup(form, Phone);
    ErrorMapLookup(form, Address);
    ErrorMapLookup(form, City);
    ErrorMapLookup(form, State);
    ErrorMapLookup(form, ZipCode);
    ErrorMapLookup(form, CardName);
    ErrorMapLookup(form, ExpiryDate);
    ErrorMapLookup(form, Cvv);
  }

  /** On a submittable form no field's rule fails. */
  lemma SubmittableFieldPasses(form: CheckoutForm, fld: Field)
    requires Submittable(form)
    ensures FieldError(form, fld).None?
  {
    MatchesEmailPatternIff(form.email);
    if fld == CardNumber {
      CardNumberVerdict(form);
      ErrorMapLookup(form, CardNumber);
    }
  }

  /** A form on which every rule passes leaves the error map empty. */
  lemma SubmittableMeansNoErrors(form: CheckoutForm)
    requires Submittable(form)
    ensures ErrorMap(form) == map[]
  {
    forall fld ensures fld !in ErrorMap(form) {
      SubmittableFieldPasses(form, fld);
      ErrorMapLookup(form, fld);
    }
    assert ErrorMap(form).Keys == {};
  }

  /** No entry in the error map means every rule passes, and conversely. */
  lemma ErrorMapEmptyIff(form: CheckoutForm)
    ensures ErrorMap(form) == map[] <==> Submittable(form)
  {
    if ErrorMap(form) == map[] {
      EmptyErrorsMeanSubmittable(form);
    }
    if Submittable(form) {
      SubmittableMeansNoErrors(form);
    }
  }

  /** `!value.trim()`: the value is missing exactly when trimming leaves
      nothing, i.e. when it is blank. */
  method IsMissing(v: string) returns (missing: bool)
    ensures missing <==> Blank(v)
  {
    TrimEmptyIffBlank(v);
    missing := Trim(v) == "";
  }

  /** `if (!formData[fld].trim()) newErrors[fld] = <required message>`. */
  method CheckPresent(errors: map<Field, string>, form: CheckoutForm, fld: Field) returns (r: map<Field, string>)
    requires fld != Email && fld != CardNumber
    ensures r == Entry(errors, fld, FieldError(form, fld))
  {
    var missing := IsMissing(Value(form, fld));
    r := errors;
    if missing {
      r := r[fld := RequiredMessage(fld)];
    }
  }

  /** The e-mail check: "required" when blank, else "invalid" when the
      pattern finds no match. */
  method CheckEmail(errors: map<Field, string>, form: CheckoutForm) returns (r: map<Field, string>)
    ensures r == Entry(errors, Email, FieldError(form, Email))
  {
    var missing := IsMissing(form.email);
    r := errors;
    if missing {
      r := r[Email := RequiredMessage(Email)];
    } else if !MatchesEmailPattern(form.email) {
      r := r[Email := InvalidEmailMessage];
    }
  }

  /** The card-number check: "required" when blank, else a length test on
      the value with whitespace removed. */
  method CheckCardNumber(errors: map<Field, string>, form: CheckoutForm) returns (r: map<Field, string>)
    ensures r == Entry(errors, CardNumber, FieldError(form, CardNumber))
  {
    var missing := IsMissing(form.cardNumber);
    r := errors;
    if missing {
      r := r[CardNumber := RequiredMessage(CardNumber)];
    } else if Utf16Length(RemoveSpaces(form.cardNumber)) != 16 {
      r := r[CardNumber := CardLengthMessage];
    }
  }

  /** `validateForm`: fills the error map field by field, in the page's
      order, then reports whether it stayed empty. */
  method ValidateForm(form: CheckoutForm) returns (errors: map<Field, string>, ok: bool)
    ensures errors == ErrorMap(form)
    ensures ok <==> Submittable(form)
  {
    errors := map[];
    errors := CheckPresent(errors, form, FirstName);
    errors := CheckPresent(errors, form, LastName);
    errors := CheckEmail(errors, form);
    errors := CheckPresent(errors, form, Phone);
    errors := CheckPresent(errors, form, Address);
    errors := CheckPresent(errors, form, City);
    errors := CheckPresent(errors, form, State);
    errors := CheckPresent(errors, form, ZipCode);
    errors := CheckCardNumber(errors, form);
    errors := CheckPresent(errors, form, CardName);
    errors := CheckPresent(errors, form, ExpiryDate);
    errors := CheckPresent(errors, form, Cvv);
    ok := |errors| == 0;

    ErrorMapEmptyIff(form);
    assert |errors| == 0 <==> errors == map[] by {
      if |errors| == 0 { assert errors.Keys == {}; }
    }
  }

  // ---------------------------------------------------------------------------
  // formatCardNumber

  function Min(a: int, b: int): int {
    if a <= b then a else b
  }

  /** Length of the run of ASCII digits starting at `i`. */
  function DigitRun(s: string, i: nat): (n: nat)
    requires i <= |s|
    ensures i + n <= |s|
    ensures AllDigits(s[i..i + n])
    ensures i + n < |s| ==> !IsDigit(s[i + n])
    decreases |s| - i
  {
    if i < |s| && IsDigit(s[i]) then
      var n := DigitRun(s, i + 1);
      assert s[i..i + 1 + n] == [s[i]] + s[i + 1..i + 1 + n];
      1 + n
    else 0
  }

  /** The first match of `/\d{4,16}/` at or after `i`: the leftmost place
      where at least four digits start, taking as many as it can, up to 16. */
  function FirstDigitMatch(s: string, i: nat): (r: Option<string>)
    requires i <= |s|
    ensures r.Some? ==> 4 <= |r.value| <= 16 && AllDigits(r.value)
    decreases |s| - i
  {
    if i == |s| then None
    else if DigitRun(s, i) >= 4 then
      var n := DigitRun(s, i);
      assert s[i..i + Min(16, n)] == s[i..i + n][..Min(16, n)];
      Some(s[i..i + Min(16, n)])
    else FirstDigitMatch(s, i + 1)
  }

  /** `(matches && matches[0]) || ''`. */
  function MatchOrEmpty(v: string): string {
    match FirstDigitMatch(v, 0)
    case Some(m) => m
    case None => ""
  }

  /** The pieces `match.substring(i, i + 4)` for i = 0, 4, 8, ... */
  function Groups(m: string): seq<string>
    decreases |m|
  {
    if m == [] then []
    else if |m| <= 4 then [m]
    else [m[..4]] + Groups(m[4..])
  }

  /** The parts laid end to end. */
  function Concat(parts: seq<string>): string {
    if parts == [] then "" else parts[0] + Concat(parts[1..])
  }

  /** `parts.join(' ')`. */
  function JoinSpace(parts: seq<string>): string {
    if parts == [] then ""
    else if |parts| == 1 then parts[0]
    else parts[0] + " " + JoinSpace(parts[1..])
  }

  /** What `formatCardNumber` returns. */
  function CardFormat(value: string): string {
    var v := Digits(RemoveSpaces(value));
    var m := MatchOrEmpty(v);
    var parts := Groups(m);
    if |parts| > 0 then JoinSpace(parts) else v
  }

  /** `m.substring(i)`: the empty string once `i` is past the end. */
  function From(m: string, i: nat): string {
    if i >= |m| then "" else m[i..]
  }

  /** Peeling the chunk at `i` off the groups of the rest. */
  lemma GroupsStep(m: string, i: nat)
    requires i < |m|
    ensures Groups(From(m, i)) == [m[i..Min(i + 4, |m|)]] + Groups(From(m, i + 4))
  {
    if |m| - i > 4 {
      assert m[i..][..4] == m[i..i + 4];
      assert m[i..][4..] == m[i + 4..];
    } else {
      assert m[i..Min(i + 4, |m|)] == m[i..];
    }
  }

  /** The loop of `formatCardNumber`: the match cut into chunks of four, the
      last one possibly shorter. */
  method Chunks(m: string) returns (parts: seq<string>)
    ensures parts == Groups(m)
  {
    parts := [];
    var i := 0;
    while i < |m|
      invariant parts + Groups(From(m, i)) == Groups(m)
      decreases |m| - i
    {
      GroupsStep(m, i);
      parts := parts + [m[i..Min(i + 4, |m|)]];
      i := i + 4;
    }
    assert parts + [] == parts;
  }

  /** `formatCardNumber`: strips whitespace and non-digits, takes the first
      run of 4 to 16 digits and pushes it in chunks of four. */
  method FormatCardNumber(value: string) returns (r: string)
    ensures r == CardFormat(value)
  {
    var v := Digits(RemoveSpaces(value));
    var m := MatchOrEmpty(v);
    var parts := Chunks(m);
    if |parts| > 0 {
      r := JoinSpace(parts);
    } else {
      r := v;
    }
  }

  /** Only ASCII digits and plain spaces: what the card field can hold once
      formatted. */
  predicate DigitsAndSpaces(s: string) {
    forall i | 0 <= i < |s| :: IsDigit(s[i]) || s[i] == ' '
  }

  lemma {:induction false} DigitRunOfDigits(v: string, i: nat)
    requires AllDigits(v) && i <= |v|
    ensures DigitRun(v, i) == |v| - i
    decreases |v| - i
  {
    if i < |v| {
      DigitRunOfDigits(v, i + 1);
    }
  }

  /** On a string of digits the pattern matches from the start, as long as
      at least four digits are there. */
  lemma {:induction false} FirstMatchOfDigits(v: string, i: nat)
    requires AllDigits(v) && i <= |v|
    ensures FirstDigitMatch(v, i) == if |v| - i >= 4 then Some(v[i..i + Min(16, |v| - i)]) else None
    decreases |v| - i
  {
    if i < |v| {
      DigitRunOfDigits(v, i);
      if |v| - i < 4 {
        FirstMatchOfDigits(v, i + 1);
      }
    }
  }

  /** Joining digit groups with spaces gives only digits and spaces. */
  lemma {:induction false} JoinSpaceAlphabet(parts: seq<string>)
    requires forall k | 0 <= k < |parts| :: AllDigits(parts[k])
    ensures DigitsAndSpaces(JoinSpace(parts))
  {
    if |parts| > 1 {
      JoinSpaceAlphabet(parts[1..]);
      var j := JoinSpace(parts);
      assert j == parts[0] + " " + JoinSpace(parts[1..]);
      forall i | 0 <= i < |j| ensures IsDigit(j[i]) || j[i] == ' ' {
        if i > |parts[0]| {
          assert j[i] == JoinSpace(parts[1..])[i - |parts[0]| - 1];
        }
      }
    }
  }

  /** The spaces of the joined string are exactly the separators: removing
      them lays the groups end to end. */
  lemma {:induction false} JoinSpaceRemoveSpaces(parts: seq<string>)
    requires forall k | 0 <= k < |parts| :: AllDigits(parts[k])
    ensures RemoveSpaces(JoinSpace(parts)) == Concat(parts)
  {
    if |parts| == 1 {
      RemoveSpacesKeepsDigits(parts[0]);
      assert Concat(parts) == parts[0] + "";
    } else if |parts| > 1 {
      var rest := JoinSpace(parts[1..]);
      JoinSpaceRemoveSpaces(parts[1..]);
      RemoveSpacesKeepsDigits(parts[0]);
      RemoveSpacesAppend(parts[0] + " ", rest);
      RemoveSpacesAppend(parts[0], " ");
      assert RemoveSpaces(" ") == [];
    }
  }

  /** One separator between each two groups. */
  lemma {:induction false} JoinSpaceLength(parts: seq<string>)
    requires |parts| > 0
    ensures |JoinSpace(parts)| == |Concat(parts)| + |parts| - 1
  {
    if |parts| == 1 {
      assert Concat(parts) == parts[0] + "";
    } else {
      JoinSpaceLength(parts[1..]);
    }
  }

  /** The groups put back together give the string; there are |m|/4 of
      them rounded up; each holds one to four characters, and all but the
      last exactly four; cut from digits, each is digits. */
  lemma {:induction false} GroupsShape(m: string)
    ensures Concat(Groups(m)) == m
    ensures |Groups(m)| == (|m| + 3) / 4
    ensures forall k | 0 <= k < |Groups(m)| :: 0 < |Groups(m)[k]| <= 4
    ensures forall k | 0 <= k < |Groups(m)| - 1 :: |Groups(m)[k]| == 4
    ensures AllDigits(m) ==> forall k | 0 <= k < |Groups(m)| :: AllDigits(Groups(m)[k])
    decreases |m|
  {
    if |m| > 4 {
      GroupsShape(m[4..]);
      var parts := Groups(m);
      assert parts == [m[..4]] + Groups(m[4..]);
      assert parts[1..] == Groups(m[4..]);
      assert m == m[..4] + m[4..];
    } else if m != [] {
      assert Concat(Groups(m)) == m + "";
    }
  }

  /** The formatted value in terms of the digits typed: with four or more,
      the first sixteen of them in groups of four; with fewer, the bare
      digits. */
  lemma CardFormatShape(value: string)
    ensures var d := Digits(value);
      CardFormat(value) == if |d| >= 4 then JoinSpace(Groups(d[..Min(16, |d|)])) else d
  {
    var d := Digits(value);
    DigitsIgnoreSpaces(value);
    FirstMatchOfDigits(d, 0);
    if |d| >= 4 {
      assert d[0..0 + Min(16, |d|)] == d[..Min(16, |d|)];
      assert MatchOrEmpty(d) == d[..Min(16, |d|)];
      assert |Groups(d[..Min(16, |d|)])| > 0;
    } else {
      assert MatchOrEmpty(d) == "";
    }
  }

  /** The formatted value holds only digits and spaces, is at most 19
      characters long (the field's limit), and without its spaces it is the
      first digits typed, at most sixteen of them. */
  lemma CardFormatDigits(value: string)
    ensures var d := Digits(value);
      RemoveSpaces(CardFormat(value)) == d[..Min(16, |d|)]
    ensures DigitsAndSpaces(CardFormat(value))
    ensures |CardFormat(value)| <= 19
  {
    var d := Digits(value);
    CardFormatShape(value);
    if |d| >= 4 {
      var m := d[..Min(16, |d|)];
      GroupsShape(m);
      JoinSpaceAlphabet(Groups(m));
      JoinSpaceRemoveSpaces(Groups(m));
      JoinSpaceLength(Groups(m));
    } else {
      RemoveSpacesKeepsDigits(d);
    }
  }

  /** Formatting a formatted value changes nothing. */
  lemma CardFormatIdempotent(value: string)
    ensures CardFormat(CardFormat(value)) == CardFormat(value)
  {
    var r := CardFormat(value);
    var d := Digits(value);
    CardFormatDigits(value);
    CardFormatShape(value);
    CardFormatShape(r);
    assert forall i | 0 <= i < |r| :: IsDigit(r[i]) || IsSpace(r[i]);
    RemoveSpacesKeepsDigits(r);
    var m := d[..Min(16, |d|)];
    assert Digits(r) == m;
    assert m[..Min(16, |m|)] == m;
    if |d| < 4 {
      assert m == d;
    }
  }

  /** Typed through the formatter, a card number passes the length rule
      exactly when at least sixteen digits were typed: extra digits are cut
      off and never reported. */
  lemma FormattedCardAcceptedIff(form: CheckoutForm, value: string)
    ensures CardNumber !in ErrorMap(form.(cardNumber := CardFormat(value)))
      <==> |Digits(value)| >= 16
  {
    var d := Digits(value);
    CardFormatDigits(value);
    AsciiLength(d[..Min(16, |d|)]);
    CardNumberVerdict(form.(cardNumber := CardFormat(value)));
  }

  // ---------------------------------------------------------------------------
  // The order payload

  datatype OrderItem = OrderItem(product: string, quantity: int)

  datatype ShippingAddress = ShippingAddress(
    firstName: string, lastName: string, email: string, phone: string,
    address: string, city: string, state: string, zipCode: string)

  /** The body sent to `createOrder`. Card details are not part of it. */
  datatype OrderData = OrderData(
    orderItems: seq<OrderItem>, shippingAddress: ShippingAddress, totalPrice: int)

  /** `items.map(item => ({ product: item._id || item.id, quantity: item.quantity }))`. */
  function OrderItems(items: seq<CartLine>): (r: seq<OrderItem>)
    ensures |r| == |items|
    ensures forall k | 0 <= k < |items| ::
      r[k].product == ProductRef(items[k]) && r[k].quantity == items[k].quantity
  {
    if items == [] then [] else [OrderItem(ProductRef(items[0]), items[0].quantity)] + OrderItems(items[1..])
  }

  /** The shipping half of the form. */
  function ShippingOf(form: CheckoutForm): ShippingAddress {
    ShippingAddress(form.firstName, form.lastName, form.email, form.phone,
                    form.address, form.city, form.state, form.zipCode)
  }

  /** `orderData`: the cart lines, the shipping half of the form and the
      cart total as the cart reported it. */
  function BuildOrder(items: seq<CartLine>, form: CheckoutForm, total: int): OrderData {
    OrderData(OrderItems(items), ShippingOf(form), total)
  }

  /** Two forms that differ only in their payment fields produce the same
      order, so no card data reaches the server; and the items follow the
      cart line for line. */
  lemma OrderIgnoresPayment(items: seq<CartLine>, a: CheckoutForm, b: CheckoutForm, total: int)
    requires ShippingOf(a) == ShippingOf(b)
    ensures BuildOrder(items, a, total) == BuildOrder(items, b, total)
    ensures BuildOrder(items, a, total).totalPrice == total
    ensures |BuildOrder(items, a, total).orderItems| == |items|
  {
  }

  /** The items of a cart split in two are the items of each part, in order. */
  lemma {:induction false} OrderItemsAppend(a: seq<CartLine>, b: seq<CartLine>)
    ensures OrderItems(a + b) == OrderItems(a) + OrderItems(b)
  {
    if a == [] {
      assert a + b == b;
    } else {
      assert (a + b)[0] == a[0];
      assert (a + b)[1..] == a[1..] + b;
      OrderItemsAppend(a[1..], b);
    }
  }

  // ---------------------------------------------------------------------------
  // The page and its effects

  /** What the page asks of its collaborators, in the order it asks. */
  datatype Call =
    | CreateOrder(order: OrderData)
    | ClearCart
    | Navigate(path: string)
    | Alert(message: string)

  const OrderFailedMessage := "Error placing order. Please try again."
  const OrderSuccessPath := "/order-success"
  const ShopPath := "/products"

  /** The calls one submission makes, given whether `createOrder` succeeds. */
  ghost function SubmitCalls(form: CheckoutForm, items: seq<CartLine>, total: int, orderSucceeds: bool): seq<Call> {
    SentCalls(Submittable(form), BuildOrder(items, form, total), orderSucceeds)
  }

  /** The calls of a submission whose validation verdict is `valid`. */
  function SentCalls(valid: bool, order: OrderData, orderSucceeds: bool): seq<Call> {
    if !valid then []
    else if orderSucceeds then [CreateOrder(order), ClearCart, Navigate(OrderSuccessPath)]
    else [CreateOrder(order), Alert(OrderFailedMessage)]
  }

  /** The cart is cleared only after the order was created, and only when it
      was; an invalid form sends nothing; a failed order alerts instead. */
  lemma ClearOnlyAfterSuccess(form: CheckoutForm, items: seq<CartLine>, total: int, orderSucceeds: bool)
    ensures var calls := SubmitCalls(form, items, total, orderSucceeds);
      && (ClearCart in calls <==> Submittable(form) && orderSucceeds)
      && (forall k | 0 <= k < |calls| && calls[k] == ClearCart ::
            exists j | 0 <= j < k :: calls[j] == CreateOrder(BuildOrder(items, form, total)))
      && (!Submittable(form) ==> calls == [])
      && (Submittable(form) && !orderSucceeds ==> Alert(OrderFailedMessage) in calls)
  {
    var calls := SubmitCalls(form, items, total, orderSucceeds);
    if Submittable(form) && orderSucceeds {
      forall k | 0 <= k < |calls| && calls[k] == ClearCart
        ensures exists j | 0 <= j < k :: calls[j] == CreateOrder(BuildOrder(items, form, total))
      {
        assert calls[0] == CreateOrder(BuildOrder(items, form, total));
      }
    }
  }

  /** `errors[name]` is truthy: a non-empty message is replaced by "". */
  function ClearedError(errors: map<Field, string>, fld: Field): (r: map<Field, string>)
    ensures r.Keys == errors.Keys
    ensures fld in r ==> r[fld] == ""
    ensures forall other | other in errors && other != fld :: r[other] == errors[other]
  {
    if fld in errors && errors[fld] != "" then errors[fld := ""] else errors
  }

  /** What the page shows for a cart. */
  datatype View = EmptyCartView(shopPath: string) | FormView

  /** The empty-cart guard: with no lines there is no form, hence no
      submission; only a link back to the shop. */
  function ViewFor(items: seq<CartLine>): (v: View)
    ensures v.FormView? <==> |items| > 0
    ensures v.EmptyCartView? ==> v.shopPath == ShopPath
  {
    if |items| == 0 then EmptyCartView(ShopPath) else FormView
  }

  class CheckoutPage {
    var form: CheckoutForm
    var errors: map<Field, string>
    var isProcessing: bool
    var calls: seq<Call>

    constructor()
      ensures form == EmptyForm && errors == map[] && !isProcessing && calls == []
    {
      form := EmptyForm;
      errors := map[];
      isProcessing := false;
      calls := [];
    }

    /** `handleChange`: stores the typed value and blanks that field's
        message. The card number has its own handler. */
    method HandleChange(fld: Field, v: string)
      requires fld != CardNumber
      modifies this
      ensures form == With(old(form), fld, v)
      ensures errors == ClearedError(old(errors), fld)
      ensures isProcessing == old(isProcessing) && calls == old(calls)
    {
      form := With(form, fld, v);
      errors := ClearedError(errors, fld);
    }

    /** `handleCardNumberChange`: stores the formatted value. */
    method HandleCardNumberChange(v: string)
      modifies this
      ensures form == old(form).(cardNumber := CardFormat(v))
      ensures DigitsAndSpaces(form.cardNumber) && |form.cardNumber| <= 19
      ensures errors == ClearedError(old(errors), CardNumber)
      ensures isProcessing == old(isProcessing) && calls == old(calls)
    {
      var formatted := FormatCardNumber(v);
      CardFormatDigits(v);
      form := form.(cardNumber := formatted);
      errors := ClearedError(errors, CardNumber);
    }

    /** `handleSubmit`: validates; when the form passes, marks the page busy,
        sends the order and, depending on `orderSucceeds` (the outcome of the
        awaited `createOrder`), clears the cart and moves on, or un-marks the
        page and alerts. */
    method HandleSubmit(items: seq<CartLine>, total: int, orderSucceeds: bool)
      modifies this
      ensures form == old(form)
      ensures errors == ErrorMap(old(form))
      ensures calls == old(calls) + SentCalls(Submittable(old(form)), BuildOrder(items, old(form), total), orderSucceeds)
      ensures calls == old(calls) + SubmitCalls(old(form), items, total, orderSucceeds)
      ensures isProcessing == if Submittable(old(form)) then orderSucceeds else old(isProcessing)
    {
      var current := form;
      var newErrors, ok := ValidateForm(current);
      errors := newErrors;
      if !ok {
        return;
      }
      isProcessing := true;
      var order := BuildOrder(items, current, total);
      calls := calls + [CreateOrder(order)];
      if orderSucceeds {
        calls := calls + [ClearCart, Navigate(OrderSuccessPath)];
      } else {
        isProcessing := false;
        calls := calls + [Alert(OrderFailedMessage)];
      }
    }
  }
}
