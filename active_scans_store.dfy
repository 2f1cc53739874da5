/** The client's persisted record of running scans: `keyOf` and
    `activeScansStore`. The store keeps one JSON text under the session key
    `activeScans`; every operation reads and parses it afresh, and `set` and
    `delete` write the whole object back. The text is modelled by what
    parsing it gives: nothing stored, an object of entries, or text that does
    not parse. */
module ActiveScansStore {
  import opened Wrappers

  const SessionKey: string := "activeScans"

  /** A website id as the client gets it from the API: a number or a string. */
  datatype WebsiteId = NumId(n: int) | StrId(s: string)

  /** The payload saved per website. The empty `scanId` stands for a missing
      or empty id and `startedAt == 0` for a missing time: both are falsy where
      the payload is read back. */
  datatype ActiveScan = ActiveScan(scanId: string, startedAt: int)

  /** The session entry: absent (or the empty string, which reads the same),
      the text of an object of entries, or text `JSON.parse` refuses. */
  datatype Stored = Absent | Saved(entries: map<string, ActiveScan>) | Unparsable

  // ---- keyOf: String(id) -------------------------------------------------

  function DigitChar(d: nat): (c: char)
    requires d < 10
    ensures '0' <= c <= '9' && (c as int) - ('0' as int) == d
  {
    (('0' as int) + d) as char
  }

  predicate IsDigit(c: char) {
    '0' <= c <= '9'
  }

  /** The decimal digits of `n`, without leading zeros. */
  function Digits(n: nat): (s: seq<char>)
    ensures |s| > 0 && forall i :: 0 <= i < |s| ==> IsDigit(s[i])
    ensures s[0] == '0' ==> n == 0
  {
    if n < 10 then [DigitChar(n)] else Digits(n / 10) + [DigitChar(n % 10)]
  }

  /** How JavaScript prints an integer number (below 10^21 in magnitude). */
  function DecimalString(n: int): string {
    if n < 0 then "-" + Digits(-n) else Digits(n)
  }

  /** `keyOf`: `String(id)`. A string id is its own key; a number's key is
      canonical decimal text that reads back as that number. */
  function KeyOf(id: WebsiteId): (k: string)
    ensures id.StrId? ==> k == id.s
    ensures id.NumId? ==> Canonical(k) && ParseDecimal(k) == Some(id.n)
  {
    match id
    case NumId(n) => DecimalRoundTrip(n); DecimalCanonical(n); DecimalString(n)
    case StrId(s) => s
  }

  /** The value of a string of decimal digits. */
  function DigitsValue(s: seq<char>): nat
    requires forall i :: 0 <= i < |s| ==> IsDigit(s[i])
  {
    if s == [] then 0
    else
      assert IsDigit(s[|s| - 1]);
      DigitsValue(s[..|s| - 1]) * 10 + ((s[|s| - 1] as int) - ('0' as int))
  }

  predicate AllDigits(s: seq<char>) {
    |s| > 0 && forall i :: 0 <= i < |s| ==> IsDigit(s[i])
  }

  /** Decimal digits without a leading zero, except for "0" itself. */
  predicate CanonicalDigits(s: seq<char>) {
    AllDigits(s) && (s[0] == '0' ==> |s| == 1)
  }

  /** The text JavaScript prints for an integer: canonical digits, with a
      minus sign only before a non-zero number. */
  predicate Canonical(s: string) {
    CanonicalDigits(s) || (|s| > 1 && s[0] == '-' && CanonicalDigits(s[1..]) && s[1] != '0')
  }

  /** Reads a key back as an integer, when it is one. */
  function ParseDecimal(s: string): Option<int> {
    if |s| > 0 && s[0] == '-' && AllDigits(s[1..]) then Some(0 - DigitsValue(s[1..]) as int)
    else if AllDigits(s) then Some(DigitsValue(s))
    else None
  }

  lemma {:induction false} DigitsValueOfDigits(n: nat)
    ensures DigitsValue(Digits(n)) == n
  {
    if n >= 10 {
      var s := Digits(n);
      assert s[..|s| - 1] == Digits(n / 10);
      DigitsValueOfDigits(n / 10);
    }
  }

  lemma DecimalCanonical(n: int)
    ensures Canonical(DecimalString(n))
  {
    if n < 0 {
      assert DecimalString(n)[1..] == Digits(-n);
    } else if n == 0 {
      assert Digits(0) == ['0'];
    }
  }

  /** Digit text whose first digit is not '0' has a positive value. */
  lemma {:induction false} LeadingNonZeroPositive(s: seq<char>)
    requires AllDigits(s) && s[0] != '0'
    ensures DigitsValue(s) >= 1
  {
    if |s| > 1 {
      var p := s[..|s| - 1];
      assert p[0] == s[0];
      LeadingNonZeroPositive(p);
    }
  }

  /** Canonical digits are the printed form of their value. */
  lemma {:induction false} DigitsOfValue(s: seq<char>)
    requires CanonicalDigits(s)
    ensures Digits(DigitsValue(s)) == s
  {
    var p := s[..|s| - 1];
    var d := (s[|s| - 1] as int) - ('0' as int);
    if |s| == 1 {
      assert p == [];
      assert DigitsValue(s) == d;
      assert DigitChar(d) == s[0];
    } else {
      assert p[0] == s[0];
      assert CanonicalDigits(p);
      LeadingNonZeroPositive(p);
      DigitsOfValue(p);
      var v := DigitsValue(s);
      assert v == DigitsValue(p) * 10 + d && 0 <= d < 10;
      assert v / 10 == DigitsValue(p) && v % 10 == d;
      assert DigitChar(d) == s[|s| - 1];
      assert s == p + [s[|s| - 1]];
    }
  }

  /** A numeric key parses back to its number. */
  lemma DecimalRoundTrip(n: int)
    ensures ParseDecimal(DecimalString(n)) == Some(n)
  {
    if n < 0 {
      var s := DecimalString(n);
      assert s[1..] == Digits(-n);
      DigitsValueOfDigits(-n);
    } else {
      DigitsValueOfDigits(n);
    }
  }

  /** Distinct numeric ids get distinct keys. */
  lemma NumericKeysDistinct(a: int, b: int)
    requires a != b
    ensures KeyOf(NumId(a)) != KeyOf(NumId(b))
  {
    DecimalRoundTrip(a);
    DecimalRoundTrip(b);
  }

  /** A number and a string name the same entry exactly when the string is
      the canonical text of that number. */
  lemma NumberAndItsTextShareAKey(n: int, s: string)
    ensures KeyOf(NumId(n)) == KeyOf(StrId(s)) <==> Canonical(s) && ParseDecimal(s) == Some(n)
  {
    if Canonical(s) && ParseDecimal(s) == Some(n) {
      if s[0] == '-' {
        DigitsOfValue(s[1..]);
        assert s == "-" + s[1..];
        LeadingNonZeroPositive(s[1..]);
      } else {
        DigitsOfValue(s);
      }
    }
  }

  // ---- the store ---------------------------------------------------------

  /** `read`: the parsed object, or `{}` when nothing is stored or the text
      does not parse. */
  function ReadStored(s: Stored): (r: map<string, ActiveScan>)
    ensures s.Saved? ==> r == s.entries
    ensures !s.Saved? ==> r == map[]
  {
    match s
    case Saved(entries) => entries
    case _ => map[]
  }

  /** `set`: read, put the payload under the key, write everything back. */
  function SetEntry(s: Stored, key: string, p: ActiveScan): (r: Stored)
    ensures r.Saved?
    ensures key in ReadStored(r) && ReadStored(r)[key] == p
    ensures ReadStored(r).Keys == ReadStored(s).Keys + {key}
    ensures forall k :: k in ReadStored(s) && k != key ==> ReadStored(r)[k] == ReadStored(s)[k]
  {
    Saved(ReadStored(s)[key := p])
  }

  /** `delete`: read, drop the key, write everything back. */
  function DeleteEntry(s: Stored, key: string): (r: Stored)
    ensures r.Saved?
    ensures ReadStored(r).Keys == ReadStored(s).Keys - {key}
    ensures forall k :: k in ReadStored(r) ==> ReadStored(r)[k] == ReadStored(s)[k]
  {
    Saved(ReadStored(s) - {key})
  }

  /** Unparsable text reads as `{}`, and the first write replaces it. */
  lemma UnparsableReadsEmpty(key: string, p: ActiveScan)
    ensures ReadStored(Unparsable) == map[]
    ensures SetEntry(Unparsable, key, p) == Saved(map[key := p])
    ensures DeleteEntry(Unparsable, key) == Saved(map[])
  {
  }

  /** Setting and then deleting a key leaves what was there without the key. */
  lemma DeleteUndoesSet(s: Stored, key: string, p: ActiveScan)
    ensures ReadStored(DeleteEntry(SetEntry(s, key, p), key)) == ReadStored(s) - {key}
  {
  }

  /** Setting a key twice keeps the second payload only. */
  lemma SetOverwrites(s: Stored, key: string, p: ActiveScan, q: ActiveScan)
    ensures SetEntry(SetEntry(s, key, p), key, q) == SetEntry(s, key, q)
  {
  }

  /** The session storage entry the store works on. */
  class SessionStore {
    var stored: Stored

    constructor (initial: Stored)
      ensures stored == initial
    {
      stored := initial;
    }

    method Read() returns (r: map<string, ActiveScan>)
      ensures r == ReadStored(stored)
    {
      match stored
      case Saved(entries) => r := entries;
      case _ => r := map[];
    }

    method Write(data: map<string, ActiveScan>)
      modifies this
      ensures stored == Saved(data)
    {
      stored := Saved(data);
    }

    method Set(key: string, p: ActiveScan)
      modifies this
      ensures stored == SetEntry(old(stored), key, p)
    {
      var data := Read();
      data := data[key := p];
      Write(data);
    }

    method Delete(key: string)
      modifies this
      ensures stored == DeleteEntry(old(stored), key)
    {
      var data := Read();
      data := data - {key};
      Write(data);
    }
  }
}
