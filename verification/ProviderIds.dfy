/**
 Provider ids of DigitalOcean droplets: printed by the machine actuator, parsed by
 dropletIDFromProviderID (cloud/providers/digitalocean/cloud.go).
 */
module ProviderIds {
  import opened Wrappers
  import opened Strings

  const MIN_INT: int := -0x8000_0000_0000_0000
  const MAX_INT: int := 0x7fff_ffff_ffff_ffff

  predicate IsInt(n: int) { MIN_INT <= n <= MAX_INT }

  const DIGITS: string := "0123456789"

  function PrintNat(n: nat): (s: string)
    ensures s != ""
    ensures forall i :: 0 <= i < |s| ==> s[i] in DIGITS
  {
    if n < 10 then [DIGITS[n]] else PrintNat(n / 10) + [DIGITS[n % 10]]
  }

  /** The %v verb on an int. */
  function PrintInt(n: int): string {
    if n < 0 then "-" + PrintNat(-n) else PrintNat(n)
  }

  function DigitValue(c: char): (d: int)
    ensures -1 <= d < 10
    ensures 0 <= d <==> c in DIGITS
    ensures 0 <= d ==> DIGITS[d] == c
  {
    if '0' <= c <= '9' then c as int - '0' as int else -1
  }

  function ParseNat(s: string): Option<nat> {
    if s == "" then None
    else
      var d := DigitValue(s[|s| - 1]);
      if d < 0 then None
      else if |s| == 1 then Some(d)
      else
        match ParseNat(s[..|s| - 1])
        case None => None
        case Some(n) => Some(10 * n + d)
  }

  /** strconv.Atoi on a 64-bit platform. */
  function Atoi(s: string): Option<int> {
    var negative := "-" <= s;
    match ParseNat(if "-" <= s || "+" <= s then s[1..] else s)
    case None => None
    case Some(n) =>
      var value := if negative then -(n as int) else n as int;
      if IsInt(value) then Some(value) else None
  }

  lemma {:induction false} NatRoundTrip(n: nat)
    ensures ParseNat(PrintNat(n)) == Some(n)
  {
    if n >= 10 {
      NatRoundTrip(n / 10);
      var s := PrintNat(n);
      assert s[..|s| - 1] == PrintNat(n / 10);
      DigitIs(n % 10);
    } else {
      DigitIs(n);
    }
  }

  lemma DigitIs(d: nat)
    requires d < 10
    ensures DigitValue(DIGITS[d]) == d
  {
    assert DIGITS[d] in DIGITS;
    forall i, j | 0 <= i < j < 10
      ensures DIGITS[i] != DIGITS[j]
    {
    }
  }

  /** A text that starts with a digit. */
  predicate Unsigned(s: string) { s != "" && s[0] in DIGITS }

  lemma PrintNatUnsigned(n: nat)
    ensures Unsigned(PrintNat(n))
  {
    assert PrintNat(n)[0] in DIGITS;
  }

  /** How Atoi reads an unsigned text, and the same text after a minus sign. */
  lemma AtoiUnsigned(s: string)
    requires Unsigned(s)
    ensures Atoi(s) ==
            match ParseNat(s)
            case None => None
            case Some(n) => if IsInt(n as int) then Some(n as int) else None
  {
    hide ParseNat;
    assert '-' !in DIGITS && '+' !in DIGITS;
    assert !("-" <= s) && !("+" <= s);
  }

  lemma AtoiNegative(s: string)
    requires Unsigned(s)
    ensures Atoi("-" + s) ==
            match ParseNat(s)
            case None => None
            case Some(n) => if IsInt(-(n as int)) then Some(-(n as int)) else None
  {
    hide ParseNat;
    assert "-" <= "-" + s && ("-" + s)[1..] == s;
  }

  /** Atoi undoes printing for every int. */
  lemma IntRoundTrip(n: int)
    requires IsInt(n)
    ensures Atoi(PrintInt(n)) == Some(n)
  {
    hide ParseNat, PrintNat, Atoi, Unsigned;
    var m: nat := if n < 0 then -n else n;
    NatRoundTrip(m);
    PrintNatUnsigned(m);
    if n < 0 {
      AtoiNegative(PrintNat(m));
    } else {
      AtoiUnsigned(PrintNat(m));
    }
  }

  const UID: string := "digitalocean"

  function TrimColon(s: string): string {
    if s != "" && s[|s| - 1] == ':' then s[..|s| - 1] else s
  }

  /** dropletIDFromProviderID. */
  function DropletId(providerId: string): Option<int> {
    if providerId == "" then None
    else
      var split := Split(providerId, '/');
      if |split| != 3 then None
      else if TrimColon(split[0]) != UID then None
      else Atoi(split[2])
  }

  /** The id the actuator prints. */
  function ProviderId(id: int): string { "digitalocean://" + PrintInt(id) }

  lemma NoSlashInInt(n: int)
    ensures '/' !in PrintInt(n)
  {
    assert '/' !in DIGITS;
  }

  /** Printing and parsing a provider id gives the droplet's id back. */
  lemma ProviderIdRoundTrip(id: int)
    requires IsInt(id)
    ensures DropletId(ProviderId(id)) == Some(id)
  {
    NoSlashInInt(id);
    IntRoundTrip(id);
    var n := PrintInt(id);
    var head := "digitalocean:";
    assert ProviderId(id) == head + ['/'] + ("" + ['/'] + n);
    SplitAfter(head, "" + ['/'] + n, '/');
    SplitAfter("", n, '/');
    SplitWhole(n, '/');
    assert head[..|head| - 1] == UID;
  }

  /** The shape of an accepted provider id: a provider, anything, and a number, between two slashes. */
  predicate Shape(providerId: string, provider: string, middle: string, number: string, id: int) {
    && providerId == provider + "/" + middle + "/" + number
    && (provider == UID || provider == UID + ":")
    && '/' !in middle && '/' !in number
    && Atoi(number) == Some(id)
  }

  lemma AcceptedHasShape(providerId: string, id: int)
    requires DropletId(providerId) == Some(id)
    ensures var split := Split(providerId, '/');
            |split| == 3 && Shape(providerId, split[0], split[1], split[2], id)
  {
    hide Atoi;
    var split := Split(providerId, '/');
    JoinSplit(providerId, '/');
    assert split[1..][1..] == [split[2]];
    assert Join(split, '/') == split[0] + ['/'] + (split[1] + ['/'] + Join([split[2]], '/'));
    if split[0] != UID {
      assert split[0] == TrimColon(split[0]) + ":";
    }
  }

  lemma ShapeIsAccepted(providerId: string, provider: string, middle: string, number: string, id: int)
    requires Shape(providerId, provider, middle, number, id)
    ensures DropletId(providerId) == Some(id)
  {
    hide Atoi;
    assert '/' !in UID;
    assert providerId == provider + ['/'] + (middle + ['/'] + number);
    SplitAfter(provider, middle + ['/'] + number, '/');
    SplitAfter(middle, number, '/');
    SplitWhole(number, '/');
    assert (UID + ":")[..|UID|] == UID;
  }

  /** Exactly which texts are accepted, and as which id. */
  lemma AcceptedIds(providerId: string, id: int)
    ensures DropletId(providerId) == Some(id) <==>
            exists provider, middle, number :: Shape(providerId, provider, middle, number, id)
  {
    hide DropletId, Shape;
    if DropletId(providerId) == Some(id) {
      AcceptedHasShape(providerId, id);
    }
    forall provider, middle, number | Shape(providerId, provider, middle, number, id) {
      ShapeIsAccepted(providerId, provider, middle, number, id);
    }
  }
}
