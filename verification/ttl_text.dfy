/** The TTL argument as text: how the client writes it and how the scripts' preflight reads it. */
module TtlText {
  import opened Redis
  import opened Scripts

  datatype Ttl = Valid(millis: nat) | Invalid(error: ScriptError)

  predicate IsDigit(c: char) { '0' <= c <= '9' }

  /** The Lua pattern "^[1-9][0-9]*$". */
  predicate Canonical(raw: string) {
    raw != "" && '1' <= raw[0] <= '9' && forall i :: 0 <= i < |raw| ==> IsDigit(raw[i])
  }

  /** The value of a digit string.  Lua's `tonumber` rounds values above 2^53, but rounding is monotone
      and 2^53 - 1 is exact, so comparing the rounded value with 2^53 - 1 decides the same way. */
  function Number(raw: string): nat
    requires forall i :: 0 <= i < |raw| ==> IsDigit(raw[i])
  {
    if raw == "" then 0
    else assert IsDigit(raw[|raw| - 1]); 10 * Number(raw[..|raw| - 1]) + (raw[|raw| - 1] - '0') as nat
  }

  /** A missing argument, or one that is not a canonical decimal, is refused before its size is looked at. */
  function Preflight(raw: Option<string>): Ttl {
    if raw.None? || !Canonical(raw.value) then Invalid(BadTtl)
    else if Number(raw.value) > MAX_EXACT then Invalid(TtlRange)
    else Valid(Number(raw.value))
  }

  /** The decimal text of a Duration's `as_millis()`. */
  function Decimal(n: nat): string {
    var last := ['0' + (n % 10) as char];
    if n < 10 then last else Decimal(n / 10) + last
  }

  lemma {:induction false} DecimalReadsBack(n: nat)
    ensures forall i :: 0 <= i < |Decimal(n)| ==> IsDigit(Decimal(n)[i])
    ensures Number(Decimal(n)) == n
    ensures n > 0 ==> Canonical(Decimal(n))
  {
    if n >= 10 {
      DecimalReadsBack(n / 10);
      assert Decimal(n)[..|Decimal(n)| - 1] == Decimal(n / 10);
    } else {
      assert Decimal(n)[..|Decimal(n)| - 1] == "";
    }
  }

  lemma {:induction false} NumberPrintsBack(raw: string)
    requires Canonical(raw)
    ensures Number(raw) > 0 && Decimal(Number(raw)) == raw
  {
    var front := raw[..|raw| - 1];
    if front == "" {
      assert raw == [raw[0]];
      assert Number(raw) == (raw[0] - '0') as nat;
    } else {
      assert Canonical(front);
      NumberPrintsBack(front);
      assert Number(raw) / 10 == Number(front);
      assert raw == front + [raw[|raw| - 1]];
    }
  }

  /** The text a client sends for a TTL in range is read back as the same integer. */
  lemma TtlRoundTrip(n: nat)
    requires 1 <= n <= MAX_EXACT
    ensures Preflight(Some(Decimal(n))) == Valid(n)
  {
    DecimalReadsBack(n);
  }

  /** The preflight accepts exactly the canonical decimals of 1 to 2^53 - 1; the decimals of larger numbers are out
      of range, and everything else, a missing argument included, is no TTL at all. */
  lemma PreflightExact(raw: string, n: nat)
    ensures Preflight(Some(raw)) == Valid(n) <==> 1 <= n <= 9007199254740991 && raw == Decimal(n)
    ensures Preflight(Some(raw)) == Invalid(TtlRange) <==> exists m: nat :: m > 9007199254740991 && raw == Decimal(m)
    ensures Preflight(Some(raw)) == Invalid(BadTtl) <==> !exists m: nat :: m > 0 && raw == Decimal(m)
    ensures Preflight(None) == Invalid(BadTtl)
  {
    forall m: nat | m > 0 && raw == Decimal(m) ensures Canonical(raw) && Number(raw) == m {
      DecimalReadsBack(m);
    }
    DecimalReadsBack(n);
    if Canonical(raw) {
      NumberPrintsBack(raw);
    }
  }
}
