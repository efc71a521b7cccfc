/** Who pays for a failed send: classification of a provider answer. */
module QuotaRefund {

  /** What a transport resolves to; `alreadyExists` is the provider saying the operation id is taken. */
  datatype SendResult = SendResult(ok: bool, providerStatus: string, alreadyExists: bool)

  predicate IsDigit(c: char) { '0' <= c <= '9' }

  function DigitValue(c: char): nat
    requires IsDigit(c)
  {
    c as nat - '0' as nat
  }

  /** The number in a status of the form HttpDDD, or -1. */
  function HttpCode(status: string): int {
    if |status| == 7 && status[..4] == "Http" && IsDigit(status[4]) && IsDigit(status[5]) && IsDigit(status[6]) then
      100 * DigitValue(status[4]) + 10 * DigitValue(status[5]) + DigitValue(status[6])
    else -1
  }

  predicate IsPlatformSideFailure(result: SendResult) {
    if result.ok then false
    else if result.providerStatus == "Error" then true
    else
      var code := HttpCode(result.providerStatus);
      code >= 500 || code == 401 || code == 403 || code == 408 || code == 429
  }

  /** How the send path reads an answer. */
  datatype Answer = Answer(accepted: bool, duplicate: bool, platformSide: bool)

  function Classify(result: SendResult): (a: Answer)
    ensures a.duplicate ==> !a.accepted
    ensures a.platformSide ==> !a.accepted
  {
    Answer(result.ok, !result.ok && result.alreadyExists, IsPlatformSideFailure(result))
  }

  function Digit(d: nat): char
    requires d < 10
  {
    "0123456789"[d]
  }

  function HttpStatus(code: nat): string
    requires code < 1000
  {
    "Http" + [Digit(code / 100), Digit(code / 10 % 10), Digit(code % 10)]
  }

  lemma DigitRoundTrip(d: nat)
    requires d < 10
    ensures IsDigit(Digit(d)) && DigitValue(Digit(d)) == d
  {
  }

  /** Over every three-digit status exactly the provider-side codes give the unit back. */
  lemma RefundedCodes(code: nat, alreadyExists: bool)
    requires code < 1000
    ensures HttpCode(HttpStatus(code)) == code
    ensures Classify(SendResult(false, HttpStatus(code), alreadyExists)).platformSide
            <==> RefundableCode(code)
  {
    DigitRoundTrip(code / 100);
    DigitRoundTrip(code / 10 % 10);
    DigitRoundTrip(code % 10);
    var status := HttpStatus(code);
    assert status[..4] == "Http";
    assert code == 100 * (code / 100) + 10 * (code / 10 % 10) + code % 10;
    assert status[0] == 'H' && "Error"[0] == 'E';
  }

  lemma DigitBack(c: char)
    requires IsDigit(c)
    ensures DigitValue(c) < 10 && Digit(DigitValue(c)) == c
  {
  }

  lemma ThreeDigits(a: nat, b: nat, c: nat)
    requires a < 10 && b < 10 && c < 10
    ensures var code := 100 * a + 10 * b + c; code / 100 == a && code / 10 % 10 == b && code % 10 == c && code < 1000
  {
  }

  /** A status is read as a code exactly when it is `Http` and three digits. */
  lemma OnlyThreeDigits(status: string)
    ensures HttpCode(status) >= 0 ==> HttpCode(status) < 1000 && status == HttpStatus(HttpCode(status))
  {
    if HttpCode(status) >= 0 {
      DigitBack(status[4]);
      DigitBack(status[5]);
      DigitBack(status[6]);
      ThreeDigits(DigitValue(status[4]), DigitValue(status[5]), DigitValue(status[6]));
      assert status == status[..4] + status[4..] && status[4..] == [status[4], status[5], status[6]];
    }
  }

  predicate RefundableCode(code: nat) { 500 <= code || code in {401, 403, 408, 429} }

  /** Over every result: the unit comes back for no response at all and for the provider-side codes, nothing else. */
  lemma PlatformSideIff(result: SendResult)
    ensures IsPlatformSideFailure(result) <==>
            !result.ok && (result.providerStatus == "Error"
                           || exists code: nat :: code < 1000 && result.providerStatus == HttpStatus(code) && RefundableCode(code))
  {
    var status := result.providerStatus;
    OnlyThreeDigits(status);
    if code: nat :| code < 1000 && status == HttpStatus(code) && RefundableCode(code) {
      RefundedCodes(code, result.alreadyExists);
    }
    if HttpCode(status) >= 0 { assert status == HttpStatus(HttpCode(status)); }
  }
}
