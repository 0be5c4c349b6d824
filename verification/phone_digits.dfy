/** Recipient normalisation: `phone.replace(/\D/g, "")` keeps the characters
    0-9 and drops every other one. */
module PhoneDigits {

  predicate IsDigit(c: char) {
    '0' <= c <= '9'
  }

  predicate AllDigits(s: string) {
    forall i :: 0 <= i < |s| ==> IsDigit(s[i])
  }

  /** The digits of `s`, in their original order. */
  function StripNonDigits(s: string): (r: string)
    ensures AllDigits(r)
    ensures |r| <= |s|
  {
    if s == [] then []
    else (if IsDigit(s[0]) then [s[0]] else []) + StripNonDigits(s[1..])
  }

  /** Stripping distributes over concatenation. */
  lemma {:induction false} StripAppend(a: string, b: string)
    ensures StripNonDigits(a + b) == StripNonDigits(a) + StripNonDigits(b)
  {
    if a == [] {
      assert a + b == b;
    } else {
      var head := if IsDigit(a[0]) then [a[0]] else [];
      assert (a + b)[0] == a[0];
      assert (a + b)[1..] == a[1..] + b;
      StripAppend(a[1..], b);
      calc {
        StripNonDigits(a + b);
        head + StripNonDigits(a[1..] + b);
        head + (StripNonDigits(a[1..]) + StripNonDigits(b));
        (head + StripNonDigits(a[1..])) + StripNonDigits(b);
        StripNonDigits(a) + StripNonDigits(b);
      }
    }
  }

  /** Stripping a one-character string keeps it exactly when it is a digit. */
  lemma StripSingle(c: char)
    ensures StripNonDigits([c]) == if IsDigit(c) then [c] else []
  {
  }

  /** Scanning left to right: one more character appends itself iff it is a digit. */
  lemma StripSnoc(s: string, i: nat)
    requires i < |s|
    ensures StripNonDigits(s[..i + 1]) == StripNonDigits(s[..i]) + (if IsDigit(s[i]) then [s[i]] else [])
  {
    assert s[..i + 1] == s[..i] + [s[i]];
    StripAppend(s[..i], [s[i]]);
    StripSingle(s[i]);
  }

  /** The strings that stripping leaves unchanged are exactly the all-digit strings. */
  lemma {:induction false} StripFixedPoints(s: string)
    ensures StripNonDigits(s) == s <==> AllDigits(s)
  {
    if s != [] && AllDigits(s) {
      assert AllDigits(s[1..]) by {
        forall i | 0 <= i < |s[1..]| ensures IsDigit(s[1..][i]) {
          assert s[1..][i] == s[i + 1];
        }
      }
      StripFixedPoints(s[1..]);
      assert s == [s[0]] + s[1..];
    }
  }

  /** Normalising twice gives the same recipient as normalising once. */
  lemma StripIdempotent(s: string)
    ensures StripNonDigits(StripNonDigits(s)) == StripNonDigits(s)
  {
    StripFixedPoints(StripNonDigits(s));
  }

  /** Every digit of `s` survives as often as it occurs; nothing else survives. */
  lemma {:induction false} StripKeepsDigits(s: string)
    ensures forall c :: multiset(StripNonDigits(s))[c] == if IsDigit(c) then multiset(s)[c] else 0
  {
    if s != [] {
      StripKeepsDigits(s[1..]);
      assert s == [s[0]] + s[1..];
      assert multiset(s) == multiset([s[0]]) + multiset(s[1..]);
    }
  }

  /** The scan the regular-expression replacement performs, one character at a time. */
  method NormaliseRecipient(phone: string) returns (r: string)
    ensures r == StripNonDigits(phone)
  {
    r := [];
    var i := 0;
    while i < |phone|
      invariant 0 <= i <= |phone|
      invariant r == StripNonDigits(phone[..i])
    {
      StripSnoc(phone, i);
      if IsDigit(phone[i]) {
        r := r + [phone[i]];
      }
      i := i + 1;
    }
    assert phone[..i] == phone;
  }
}
