/**
 * The WhatsApp phone field of js/app.js: the cleaning
 * `replace(/[\s\-\(\)]/g, "")`, the pattern `/^\+?[\d]{10,15}$/`, the check
 * before sending, the input listener's validity flag and the blur
 * listener that prefixes "+".
 */
module Phone {
  import opened Text
  import opened Decimal

  /** The characters the cleaning removes: white space, '-', '(' and ')'. */
  predicate Stripped(c: char) {
    IsSpace(c) || c == '-' || c == '(' || c == ')'
  }

  /** `s.replace(/[\s\-\(\)]/g, "")`: `s` with every stripped character removed, the rest in order. */
  function CleanNumber(s: string): (r: string)
    ensures |r| <= |s|
    ensures forall i :: 0 <= i < |r| ==> !Stripped(r[i])
    ensures (forall i :: 0 <= i < |s| ==> !Stripped(s[i])) ==> r == s
    ensures forall c :: c in r ==> c in s
    ensures |s| == 1 ==> r == (if Stripped(s[0]) then [] else s)
  {
    if s == [] then []
    else (if Stripped(s[0]) then [] else [s[0]]) + CleanNumber(s[1..])
  }

  /**
   * The cleaning works character by character: cleaning a concatenation
   * cleans each part, so every character that is not stripped is kept,
   * in order.
   */
  lemma {:induction false} CleanNumberAppend(a: string, b: string)
    ensures CleanNumber(a + b) == CleanNumber(a) + CleanNumber(b)
    decreases |a|
  {
    if a == [] {
      assert a + b == b;
    } else {
      ConcatTail(a, b);
      CleanNumberAppend(a[1..], b);
    }
  }

  /** Cleaning a cleaned number changes nothing. */
  lemma CleanNumberIdempotent(s: string)
    ensures CleanNumber(CleanNumber(s)) == CleanNumber(s)
  {
  }

  /** `/^\+?[\d]{10,15}$/.test(s)`: an optional '+' and then 10 to 15 ASCII digits, nothing else. */
  predicate PhonePattern(s: string) {
    var digits := if |s| > 0 && s[0] == '+' then s[1..] else s;
    AllDigits(digits) && 10 <= |digits| <= 15
  }

  /** What `sendWhatsAppDirect` does with the typed number. */
  datatype SendCheck = PhoneRequired | InvalidNumber | SendTo(number: string)

  /**
   * `sendWhatsAppDirect()`: a blank field asks for a number, a number
   * that does not clean up to the pattern is refused, otherwise the
   * cleaned number is used.
   */
  function SendTarget(raw: string): (r: SendCheck)
    ensures r == PhoneRequired <==> Trim(raw) == []
    ensures r.SendTo? ==> PhonePattern(r.number) && r.number == CleanNumber(Trim(raw))
    ensures r == InvalidNumber ==> !PhonePattern(CleanNumber(Trim(raw)))
  {
    var phoneNumber := Trim(raw);
    if phoneNumber == [] then PhoneRequired
    else
      var cleanNumber := CleanNumber(phoneNumber);
      if !PhonePattern(cleanNumber) then InvalidNumber else SendTo(cleanNumber)
  }

  /** The input listener's `isValid`, which also enables the send button. */
  predicate InputValid(raw: string) {
    PhonePattern(CleanNumber(Trim(raw))) && |Trim(raw)| > 0
  }

  /**
   * The send button is enabled exactly when sending would go ahead; the
   * listener's extra `length > 0` test never decides anything, since an
   * empty text cannot match the pattern.
   */
  lemma ButtonAgreesWithSend(raw: string)
    ensures InputValid(raw) <==> SendTarget(raw).SendTo?
    ensures InputValid(raw) <==> PhonePattern(CleanNumber(Trim(raw)))
  {
    if Trim(raw) == [] {
      assert CleanNumber(Trim(raw)) == [];
    }
  }

  /** The condition under which the blur listener rewrites the field. */
  predicate BareNumber(raw: string) {
    var phoneNumber := Trim(raw);
    var cleanNumber := CleanNumber(phoneNumber);
    phoneNumber != [] && phoneNumber[0] != '+' && AllDigits(cleanNumber) && 10 <= |cleanNumber| <= 15
  }

  /** "+" followed by 10-15 digits is already trimmed, already clean and matches the pattern. */
  lemma PlusDigitsIsFinal(digits: string)
    requires AllDigits(digits) && 10 <= |digits| <= 15
    ensures var r := "+" + digits; Trim(r) == r && CleanNumber(r) == r && PhonePattern(r) && r[0] == '+'
  {
    var r := "+" + digits;
    assert r[1..] == digits;
    assert forall i :: 0 <= i < |r| ==> !Stripped(r[i]) by {
      forall i | 0 <= i < |r| ensures !Stripped(r[i]) {
        if i > 0 {
          assert r[i] == digits[i - 1];
        }
      }
    }
    PlusDigitsTrimmed(digits);
  }

  lemma PlusDigitsTrimmed(digits: string)
    requires AllDigits(digits) && digits != []
    ensures Trim("+" + digits) == "+" + digits
  {
    var r := "+" + digits;
    assert r[|r| - 1] == digits[|digits| - 1];
    TrimIdentity(r);
  }

  /**
   * The blur listener: a non-blank number typed without '+' that cleans
   * to 10-15 digits becomes "+" and those digits; anything else is left
   * exactly as typed (untrimmed).
   */
  function BlurFormat(raw: string): (r: string)
    ensures r != raw <==> BareNumber(raw)
    ensures r != raw ==> r == "+" + CleanNumber(Trim(raw)) && InputValid(r)
  {
    if BareNumber(raw) then
      var cleanNumber := CleanNumber(Trim(raw));
      PlusDigitsIsFinal(cleanNumber);
      "+" + cleanNumber
    else raw
  }

  /** A rewritten field is a complete international number, so a second blur leaves it alone. */
  lemma BlurIdempotent(raw: string)
    ensures BlurFormat(BlurFormat(raw)) == BlurFormat(raw)
  {
    var r := BlurFormat(raw);
    if r != raw {
      PlusDigitsIsFinal(CleanNumber(Trim(raw)));
    }
  }

  /** After a rewrite, sending uses the rewritten number as it stands. */
  lemma BlurredNumberIsSent(raw: string)
    requires BareNumber(raw)
    ensures SendTarget(BlurFormat(raw)) == SendTo(BlurFormat(raw))
  {
    PlusDigitsIsFinal(CleanNumber(Trim(raw)));
  }
}
