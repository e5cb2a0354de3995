/** The strings events are deduplicated under. */
module Keys {
  import opened Base

  function DigitChar(d: int): char
    requires 0 <= d < 10
  {
    '0' + d as char
  }

  /** Sprint of an unsigned integer. */
  function Decimal(n: nat): string {
    if n < 10 then [DigitChar(n)] else Decimal(n / 10) + [DigitChar(n % 10)]
  }

  /** The completion key, "root:column". Roots are arbitrary strings and may themselves hold ':'. */
  function CompletionKey(root: string, column: u64): string {
    root + ":" + Decimal(column)
  }

  predicate IsDecimal(s: string) {
    s != "" && forall i :: 0 <= i < |s| ==> '0' <= s[i] <= '9'
  }

  function ParseDecimal(s: string): nat
    requires IsDecimal(s)
  {
    var last := (s[|s| - 1] - '0') as int;
    if |s| == 1 then last else ParseDecimal(s[..|s| - 1]) * 10 + last
  }

  /** The position of the last ':'. */
  function LastColon(s: string): Option<nat> {
    if s == "" then None
    else if s[|s| - 1] == ':' then Some(|s| - 1)
    else LastColon(s[..|s| - 1])
  }

  lemma {:induction false} LastColonInRange(s: string)
    ensures LastColon(s).Some? ==> LastColon(s).value < |s|
  {
    if s != "" && s[|s| - 1] != ':' { LastColonInRange(s[..|s| - 1]); }
  }

  /** Split at the last colon and read the digits after it. */
  function ParseKey(s: string): Option<(string, nat)> {
    LastColonInRange(s);
    match LastColon(s)
    case None => None
    case Some(i) => if IsDecimal(s[i + 1..]) then Some((s[..i], ParseDecimal(s[i + 1..]))) else None
  }

  lemma {:induction false} DecimalRoundTrip(n: nat)
    ensures IsDecimal(Decimal(n)) && ParseDecimal(Decimal(n)) == n
  {
    if n >= 10 {
      DecimalRoundTrip(n / 10);
      assert Decimal(n)[..|Decimal(n)| - 1] == Decimal(n / 10);
    }
  }

  lemma {:induction false} LastColonAfterDigits(root: string, digits: string)
    requires digits == "" || IsDecimal(digits)
    ensures LastColon(root + ":" + digits) == Some(|root|)
  {
    if digits == "" {
      assert root + ":" + digits == root + ":";
    } else {
      var shorter := digits[..|digits| - 1];
      LastColonAfterDigits(root, shorter);
      assert (root + ":" + digits)[..|root| + |digits|] == root + ":" + shorter;
    }
  }

  /** Printing a completion key and parsing it back gives the root and the column. */
  lemma CompletionKeyRoundTrip(root: string, column: u64)
    ensures ParseKey(CompletionKey(root, column)) == Some((root, column))
  {
    DecimalRoundTrip(column);
    LastColonAfterDigits(root, Decimal(column));
    var key := CompletionKey(root, column);
    assert key[..|root|] == root && key[|root| + 1..] == Decimal(column);
  }

  /** Distinct (root, column) pairs never share a dedup entry. */
  lemma CompletionKeyInjective(root: string, column: u64, root': string, column': u64)
    ensures CompletionKey(root, column) == CompletionKey(root', column') <==> root == root' && column == column'
  {
    CompletionKeyRoundTrip(root, column);
    CompletionKeyRoundTrip(root', column');
  }

  lemma DecimalInjective(m: nat, n: nat)
    ensures Decimal(m) == Decimal(n) <==> m == n
  {
    DecimalRoundTrip(m);
    DecimalRoundTrip(n);
  }
}
