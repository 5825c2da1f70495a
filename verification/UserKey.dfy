/** The key under which the hub files a logged-in user: the decimal application id, an underscore, the user id.
    User ids may themselves contain underscores and digits, so that two users never share a key is a theorem here. */
module UserKey {
  import opened Options

  type AppId = a: int | 0 <= a < 0x1_0000_0000

  predicate IsDigit(c: char) { '0' <= c <= '9' }

  function Digit(d: int): (c: char)
    requires 0 <= d < 10
    ensures IsDigit(c) && DigitValue(c) == d
  {
    '0' + d as char
  }

  function DigitValue(c: char): (d: int)
    requires IsDigit(c)
    ensures 0 <= d < 10
  {
    c as int - '0' as int
  }

  /** What the verb %d prints for a natural number. */
  function Decimal(n: nat): (s: string)
    ensures s != [] && forall i | 0 <= i < |s| :: IsDigit(s[i])
    ensures s[0] == '0' ==> n == 0
    ensures n == 0 ==> s == "0"
  {
    if n < 10 then [Digit(n)] else Decimal(n / 10) + [Digit(n % 10)]
  }

  function GetUserKey(appId: AppId, userId: string): string {
    Decimal(appId) + "_" + userId
  }

  /** The number a string of digits denotes. */
  function Number(s: string): nat
    requires forall i | 0 <= i < |s| :: IsDigit(s[i])
  {
    if s == [] then 0 else 10 * Number(s[..|s| - 1]) + DigitValue(s[|s| - 1])
  }

  /** The digits at the front of a string. */
  function Digits(s: string): (d: string)
    ensures d <= s
    ensures forall i | 0 <= i < |d| :: IsDigit(d[i])
    ensures |d| < |s| ==> !IsDigit(s[|d|])
  {
    if s == [] || !IsDigit(s[0]) then [] else [s[0]] + Digits(s[1..])
  }

  /** Decodes a key: digits without a superfluous leading zero and within 32 bits, one underscore, then the user id. */
  function ParseUserKey(key: string): Option<(AppId, string)> {
    var d := Digits(key);
    if d == [] || (d[0] == '0' && |d| > 1) || |d| == |key| || key[|d|] != '_' then
      None
    else if Number(d) < 0x1_0000_0000 then
      Some((Number(d), key[|d| + 1..]))
    else
      None
  }

  lemma {:induction false} NumberOfDecimal(n: nat)
    ensures Number(Decimal(n)) == n
  {
    if n >= 10 {
      NumberOfDecimal(n / 10);
      assert Decimal(n)[..|Decimal(n)| - 1] == Decimal(n / 10);
    }
  }

  lemma {:induction false} DecimalOfNumber(s: string)
    requires s != [] && forall i | 0 <= i < |s| :: IsDigit(s[i])
    requires s[0] == '0' ==> |s| == 1
    ensures Decimal(Number(s)) == s
    ensures |s| > 1 ==> Number(s) >= 10
  {
    var front, last := s[..|s| - 1], s[|s| - 1];
    assert s == front + [last];
    assert Digit(DigitValue(last)) == last;
    if |s| > 1 {
      DecimalOfNumber(front);
      assert |front| == 1 ==> Number(front) == 10 * Number(front[..0]) + DigitValue(front[0]);
      assert Number(front) >= 1;
    }
  }

  lemma {:induction false} DigitsOfPrefix(d: string, rest: string)
    requires forall i | 0 <= i < |d| :: IsDigit(d[i])
    requires rest != [] && !IsDigit(rest[0])
    ensures Digits(d + rest) == d
  {
    if d != [] {
      assert (d + rest)[1..] == d[1..] + rest;
      DigitsOfPrefix(d[1..], rest);
    } else {
      assert d + rest == rest;
    }
  }

  /** Decoding undoes encoding, whatever underscores and digits the user id holds. */
  lemma ParseInvertsKey(appId: AppId, userId: string)
    ensures ParseUserKey(GetUserKey(appId, userId)) == Some((appId, userId))
  {
    var d := Decimal(appId);
    var key := GetUserKey(appId, userId);
    assert key == d + ("_" + userId);
    DigitsOfPrefix(d, "_" + userId);
    NumberOfDecimal(appId);
    assert key[|d| + 1..] == userId;
    assert appId != 0 || d == "0";
  }

  /** The decoder accepts nothing but keys: what it accepts prints back to the same text. */
  lemma KeyInvertsParse(key: string, appId: AppId, userId: string)
    requires ParseUserKey(key) == Some((appId, userId))
    ensures GetUserKey(appId, userId) == key
  {
    var d := Digits(key);
    DecimalOfNumber(d);
    assert key == d + [key[|d|]] + key[|d| + 1..];
  }

  /** Distinct users have distinct keys. */
  lemma GetUserKeyInjective(a: AppId, u: string, b: AppId, v: string)
    ensures GetUserKey(a, u) == GetUserKey(b, v) <==> a == b && u == v
  {
    ParseInvertsKey(a, u);
    ParseInvertsKey(b, v);
  }

  /** What a key looks like: the decimal digits of the application id, none superfluous, an underscore, the user id. */
  lemma KeyLayout(appId: AppId, userId: string)
    ensures var key := GetUserKey(appId, userId); var n := |key| - |userId| - 1;
            && n > 0 && key[n] == '_' && key[n + 1..] == userId
            && (forall i | 0 <= i < n :: '0' <= key[i] <= '9') && (key[0] == '0' ==> appId == 0 && n == 1)
            && Number(key[..n]) == appId
  {
    var d, key := Decimal(appId), GetUserKey(appId, userId);
    assert key[..|d|] == d && key[0] == d[0];
    NumberOfDecimal(appId);
  }

  lemma KeyExample()
    ensures GetUserKey(101, "ana_7") == "101_ana_7" && GetUserKey(0, "") == "0_"
  {
    assert Decimal(101) == Decimal(10) + "1" && Decimal(10) == Decimal(1) + "0";
  }
}
