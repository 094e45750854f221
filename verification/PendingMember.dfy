/**
 Members of the pending ZSet: "{good_id}:{user_id}" in decimal, written by the
 pre-deduct and parsed back by the reconciler.
 */
module PendingMember {

  const MIN_INT64: int := -0x8000_0000_0000_0000
  const MAX_INT64: int := 0x7fff_ffff_ffff_ffff

  predicate IsInt64(n: int) { MIN_INT64 <= n <= MAX_INT64 }

  datatype Result<T> = Ok(value: T) | Err

  // ---- Writing --------------------------------------------------------------------

  function Digit(d: nat): char
    requires d < 10
  {
    '0' + d as char
  }

  /** %d of a number that is not negative. */
  function Digits(n: nat): string
  {
    if n < 10 then [Digit(n)] else Digits(n / 10) + [Digit(n % 10)]
  }

  function Decimal(n: int): string
  {
    if n < 0 then "-" + Digits(-n) else Digits(n)
  }

  function Member(good: int, user: int): string
  {
    Decimal(good) + ":" + Decimal(user)
  }

  // ---- Parsing ---------------------------------------------------------------------

  predicate IsDigit(c: char) { '0' <= c <= '9' }

  function DigitValue(c: char): nat
    requires IsDigit(c)
  {
    c as int - '0' as int
  }

  predicate AllDigits(s: string)
  {
    forall i :: 0 <= i < |s| ==> IsDigit(s[i])
  }

  function ValueOf(s: string): nat
    requires AllDigits(s)
  {
    if s == [] then 0 else 10 * ValueOf(s[..|s| - 1]) + DigitValue(s[|s| - 1])
  }

  /** strconv.ParseInt(s, 10, 64): an optional sign, digits, and the result in range. */
  function ParseInt(s: string): Result<int>
  {
    var body := if s != [] && (s[0] == '-' || s[0] == '+') then s[1..] else s;
    if body == [] || !AllDigits(body) then Err
    else
      var n: int := if s[0] == '-' then 0 - ValueOf(body) else ValueOf(body);
      if IsInt64(n) then Ok(n) else Err
  }

  method SplitFirst(s: string, sep: char) returns (parts: (string, string))
    ensures sep in s ==> s == parts.0 + [sep] + parts.1 && sep !in parts.0
    ensures sep !in s ==> parts == (s, "")
  {
    for i := 0 to |s|
      invariant sep !in s[..i]
    {
      if s[i] == sep {
        return (s[..i], s[i + 1..]);
      }
    }
    return (s, "");
  }

  /** Both halves around the first colon, as the parser sees them. */
  ghost predicate Splits(member: string, left: string, right: string)
  {
    if ':' in member then member == left + ":" + right && ':' !in left
    else left == member && right == ""
  }

  method ParsePendingMember(member: string) returns (r: Result<(int, int)>)
    ensures forall left, right :: Splits(member, left, right) ==>
              r == match (ParseInt(left), ParseInt(right))
                   case (Ok(g), Ok(u)) => Ok((g, u))
                   case _ => Err
  {
    var parts := SplitFirst(member, ':');
    forall left, right | Splits(member, left, right) ensures left == parts.0 && right == parts.1 {
      SplitIsUnique(member, left, right, parts.0, parts.1);
    }
    var good := ParseInt(parts.0);
    if good.Err? {
      return Err;
    }
    var user := ParseInt(parts.1);
    if user.Err? {
      return Err;
    }
    return Ok((good.value, user.value));
  }

  lemma SplitIsUnique(member: string, a: string, b: string, c: string, d: string)
    requires Splits(member, a, b) && Splits(member, c, d)
    ensures a == c && b == d
  {
    if ':' in member {
      ColonAt(member, a, b);
      ColonAt(member, c, d);
      assert |a| == |c|;
      assert a == member[..|a|] && c == member[..|c|];
      assert b == member[|a| + 1..] && d == member[|c| + 1..];
    }
  }

  lemma ColonAt(member: string, left: string, right: string)
    requires member == left + ":" + right && ':' !in left
    ensures |left| < |member| && member[|left|] == ':'
    ensures forall i :: 0 <= i < |left| ==> member[i] != ':'
  {
    forall i | 0 <= i < |left| ensures member[i] != ':' {
      assert member[i] == left[i] && left[i] in left;
    }
  }

  // ---- Round trip ---------------------------------------------------------------------

  lemma {:induction false} DigitsParse(n: nat)
    ensures Digits(n) != [] && AllDigits(Digits(n)) && ValueOf(Digits(n)) == n
  {
    if n >= 10 {
      DigitsParse(n / 10);
      assert Digits(n)[..|Digits(n)| - 1] == Digits(n / 10);
    } else {
      assert Digits(n)[..0] == [];
    }
  }

  lemma DecimalParses(n: int)
    requires IsInt64(n)
    ensures ParseInt(Decimal(n)) == Ok(n) && ':' !in Decimal(n)
  {
    var size := if n < 0 then -n else n;
    DigitsParse(size);
    if n < 0 {
      assert Decimal(n)[1..] == Digits(size);
    } else {
      assert IsDigit(Decimal(n)[0]);
    }
  }

  lemma MemberSplits(good: int, user: int)
    requires IsInt64(good) && IsInt64(user)
    ensures Splits(Member(good, user), Decimal(good), Decimal(user))
  {
    DecimalParses(good);
    assert Member(good, user)[|Decimal(good)|] == ':';
  }

  /** What the pre-deduct writes for a participation is what the reconciler reads back. */
  method RoundTrip(good: int, user: int) returns (r: Result<(int, int)>)
    requires IsInt64(good) && IsInt64(user)
    ensures r == Ok((good, user))
  {
    MemberSplits(good, user);
    DecimalParses(good);
    DecimalParses(user);
    r := ParsePendingMember(Member(good, user));
  }

  /** Different participations never share a mark. */
  lemma MembersAreDistinct(g: int, u: int, g': int, u': int)
    requires IsInt64(g) && IsInt64(u) && IsInt64(g') && IsInt64(u') && Member(g, u) == Member(g', u')
    ensures g == g' && u == u'
  {
    MemberSplits(g, u);
    MemberSplits(g', u');
    SplitIsUnique(Member(g, u), Decimal(g), Decimal(u), Decimal(g'), Decimal(u'));
    DecimalParses(g);
    DecimalParses(g');
    DecimalParses(u);
    DecimalParses(u');
  }
}
