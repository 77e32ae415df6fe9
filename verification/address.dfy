/** The account-address texts the routes accept: the KYC-status route's
    pattern `^0x[a-fA-F0-9]{40}$`, anchored at both ends, and the validation
    library's address check used by the eligibility route. */
module Address {

  const AddressLength: nat := 42

  predicate IsHexDigit(c: char)
  {
    '0' <= c <= '9' || 'a' <= c <= 'f' || 'A' <= c <= 'F'
  }

  /** The language of the pattern: a lower-case "0x" and exactly forty hex
      digits of either case, nothing before and nothing after. */
  predicate IsAddressFormat(s: string)
  {
    |s| == AddressLength && s[0] == '0' && s[1] == 'x' &&
    forall i :: 2 <= i < |s| ==> IsHexDigit(s[i])
  }

  /** A left-to-right scan of the text against the pattern, as the route's
      regular-expression match performs it. */
  method MatchAddressPattern(s: string) returns (ok: bool)
    ensures ok <==> IsAddressFormat(s)
  {
    if |s| != AddressLength || s[0] != '0' || s[1] != 'x' {
      return false;
    }
    var i := 2;
    while i < |s|
      invariant 2 <= i <= |s|
      invariant forall j :: 2 <= j < i ==> IsHexDigit(s[j])
    {
      if !IsHexDigit(s[i]) {
        return false;
      }
      i := i + 1;
    }
    return true;
  }

  function LowerAscii(c: char): char
  {
    if 'A' <= c <= 'Z' then (c as int + 32) as char else c
  }

  /** The address with its forty digits folded to lower case; the "0x"
      prefix is kept as written. */
  function FoldDigits(s: string): (t: string)
    requires |s| >= 2
    ensures |t| == |s| && t[..2] == s[..2]
    ensures forall i :: 2 <= i < |s| ==> t[i] == LowerAscii(s[i])
  {
    s[..2] + seq(|s| - 2, i requires 0 <= i < |s| - 2 => LowerAscii(s[i + 2]))
  }

  /** The digits match in either case: folding them to lower case neither
      admits nor rejects any text. */
  lemma DigitCaseIrrelevant(s: string)
    requires |s| >= 2
    ensures IsAddressFormat(s) <==> IsAddressFormat(FoldDigits(s))
  {
  }

  /** The validation library's `isEthereumAddress`: the pattern
      `^(0x)[0-9a-f]{40}$` with the case-insensitive flag, so the prefix may
      be written "0X" as well. */
  predicate IsEthereumAddress(s: string)
  {
    |s| == AddressLength && s[0] == '0' && (s[1] == 'x' || s[1] == 'X') &&
    forall i :: 2 <= i < |s| ==> IsHexDigit(s[i])
  }

  /** The two address checks differ only in the case of the prefix: every
      text the KYC-status route accepts passes the library's check, and the
      library additionally accepts exactly the texts written with "0X". */
  lemma AddressChecksDiffer(s: string)
    ensures IsAddressFormat(s) ==> IsEthereumAddress(s)
    ensures IsEthereumAddress(s) && !IsAddressFormat(s) <==> IsEthereumAddress(s) && s[1] == 'X'
  {
  }
}
