/**
 Password generation and its policy (backend/services/password_policy.py). Random choices are left
 open: what is proved holds for every outcome of `secrets.choice` and of the shuffle.
 */
module Passwords {
  import opened Common

  const UPPER := "ABCDEFGHIJKLMNOPQRSTUVWXYZ"
  const LOWER := "abcdefghijklmnopqrstuvwxyz"
  const DIGITS := "0123456789"
  const SYMBOLS := "!@#$%^&*()-_=+[]{}"
  const ALL_CHARS := UPPER + LOWER + DIGITS + SYMBOLS
  const MIN_LENGTH := 16

  /** The first requirement a password does not meet. */
  datatype Unmet = TooShort | NoUpper | NoLower | NoDigit | NoSymbol

  predicate AnyIn(password: string, pool: string) {
    exists i | 0 <= i < |password| :: password[i] in pool
  }

  function ValidatePasswordPolicy(password: string): Option<Unmet> {
    if |password| < MIN_LENGTH then Some(TooShort)
    else if !AnyIn(password, UPPER) then Some(NoUpper)
    else if !AnyIn(password, LOWER) then Some(NoLower)
    else if !AnyIn(password, DIGITS) then Some(NoDigit)
    else if !AnyIn(password, SYMBOLS) then Some(NoSymbol)
    else None
  }

  // ---------------------------------------------------------------- counting

  function CountIn(s: seq<char>, pool: string): nat {
    if s == [] then 0 else (if s[0] in pool then 1 else 0) + CountIn(s[1..], pool)
  }

  lemma {:induction false} CountAdds(s: seq<char>, t: seq<char>, pool: string)
    ensures CountIn(s + t, pool) == CountIn(s, pool) + CountIn(t, pool)
  {
    if s == [] {
      assert s + t == t;
    } else {
      CountAdds(s[1..], t, pool);
      assert (s + t)[1..] == s[1..] + t;
    }
  }

  lemma {:induction false} CountMeansAny(s: seq<char>, pool: string)
    ensures CountIn(s, pool) > 0 <==> AnyIn(s, pool)
  {
    if s != [] {
      CountMeansAny(s[1..], pool);
      if AnyIn(s[1..], pool) {
        var i :| 0 <= i < |s[1..]| && s[1..][i] in pool;
        assert s[i + 1] in pool;
      } else if AnyIn(s, pool) {
        var i :| 0 <= i < |s| && s[i] in pool;
        assert i > 0 ==> s[1..][i - 1] in pool;
      }
    }
  }

  lemma Without(t: seq<char>, k: nat, pool: string)
    requires k < |t|
    ensures multiset(t[..k] + t[k + 1..]) == multiset(t) - multiset{t[k]}
    ensures CountIn(t, pool) == CountIn(t[..k] + t[k + 1..], pool) + if t[k] in pool then 1 else 0
  {
    var front, back := t[..k], t[k + 1..];
    assert t == front + ([t[k]] + back);
    assert multiset(t) == multiset(front) + (multiset{t[k]} + multiset(back));
    assert multiset(front + back) == multiset(front) + multiset(back);
    assert ([t[k]] + back)[1..] == back;
    CountAdds(front, back, pool);
    CountAdds(front, [t[k]] + back, pool);
  }

  lemma WithoutFirst(s: seq<char>, pool: string)
    requires s != []
    ensures multiset(s[1..]) == multiset(s) - multiset{s[0]}
  {
    assert s == [s[0]] + s[1..];
  }

  /** Counting looks at the characters, not at their places. */
  lemma {:induction false} CountIgnoresOrder(s: seq<char>, t: seq<char>, pool: string)
    requires multiset(s) == multiset(t)
    ensures CountIn(s, pool) == CountIn(t, pool)
    decreases |s|
  {
    if s == [] {
      assert |multiset(t)| == 0;
      assert t == [];
    } else {
      assert s[0] in multiset(t);
      var k :| 0 <= k < |t| && t[k] == s[0];
      WithoutFirst(s, pool);
      Without(t, k, pool);
      CountIgnoresOrder(s[1..], t[..k] + t[k + 1..], pool);
    }
  }

  lemma AcceptedHasEach(password: string)
    ensures ValidatePasswordPolicy(password).None? <==>
      && |password| >= MIN_LENGTH && AnyIn(password, UPPER) && AnyIn(password, LOWER)
      && AnyIn(password, DIGITS) && AnyIn(password, SYMBOLS)
  {
  }

  /** A character of each class. */
  predicate OneOfEach(password: string) {
    && CountIn(password, UPPER) >= 1 && CountIn(password, LOWER) >= 1
    && CountIn(password, DIGITS) >= 1 && CountIn(password, SYMBOLS) >= 1
  }

  lemma OneOfEachMeansAny(password: string)
    ensures OneOfEach(password) <==>
      AnyIn(password, UPPER) && AnyIn(password, LOWER) && AnyIn(password, DIGITS) && AnyIn(password, SYMBOLS)
  {
    CountMeansAny(password, UPPER);
    CountMeansAny(password, LOWER);
    CountMeansAny(password, DIGITS);
    CountMeansAny(password, SYMBOLS);
  }

  /** The validator accepts exactly the passwords long enough and with a character of each class. */
  lemma AcceptedExactly(password: string)
    ensures ValidatePasswordPolicy(password).None? <==> |password| >= 16 && OneOfEach(password)
  {
    AcceptedHasEach(password);
    OneOfEachMeansAny(password);
  }

  /** And names the first requirement a password fails, in this order. */
  lemma RefusedFor(password: string)
    ensures ValidatePasswordPolicy(password) == Some(TooShort) <==> |password| < 16
    ensures |password| >= 16 ==>
              var upper, lower, digits := CountIn(password, UPPER), CountIn(password, LOWER), CountIn(password, DIGITS);
              && (ValidatePasswordPolicy(password) == Some(NoUpper) <==> upper == 0)
              && (ValidatePasswordPolicy(password) == Some(NoLower) <==> upper > 0 && lower == 0)
              && (ValidatePasswordPolicy(password) == Some(NoDigit) <==> upper > 0 && lower > 0 && digits == 0)
              && (ValidatePasswordPolicy(password) == Some(NoSymbol) <==>
                    upper > 0 && lower > 0 && digits > 0 && CountIn(password, SYMBOLS) == 0)
  {
    CountMeansAny(password, UPPER);
    CountMeansAny(password, LOWER);
    CountMeansAny(password, DIGITS);
    CountMeansAny(password, SYMBOLS);
  }

  // ---------------------------------------------------------------- generation

  /** `secrets.choice`: any character of the pool. */
  method Choice(pool: string) returns (c: char)
    requires pool != ""
    ensures c in pool
  {
    var i: nat :| i < |pool|;
    c := pool[i];
  }

  method Choices(pool: string, n: nat) returns (chars: seq<char>)
    requires pool != ""
    ensures |chars| == n && forall i | 0 <= i < n :: chars[i] in pool
  {
    chars := [];
    while |chars| < n
      invariant |chars| <= n && forall i | 0 <= i < |chars| :: chars[i] in pool
    {
      var c := Choice(pool);
      chars := chars + [c];
    }
  }

  lemma {:induction false} CountAll(s: seq<char>, pool: string)
    requires forall i | 0 <= i < |s| :: s[i] in pool
    ensures CountIn(s, pool) == |s|
  {
    if s != [] {
      CountAll(s[1..], pool);
    }
  }

  /** The positions drawn, from the back: each element swaps with one up to itself. */
  predicate Draws(draws: seq<nat>, n: nat) {
    |draws| == (if n > 0 then n - 1 else 0) && forall k | 0 <= k < |draws| :: draws[k] <= n - 1 - k
  }

  function Swapped(s: seq<char>, i: nat, j: nat): seq<char>
    requires i < |s| && j < |s|
  {
    s[i := s[j]][j := s[i]]
  }

  /** The first n elements shuffled with these draws. */
  function Shuffled(s: seq<char>, n: nat, draws: seq<nat>): seq<char>
    requires n <= |s| && Draws(draws, n)
    decreases n
  {
    if n <= 1 then s else Shuffled(Swapped(s, n - 1, draws[0]), n - 1, draws[1..])
  }

  lemma SwapKeeps(s: seq<char>, i: nat, j: nat)
    requires i < |s| && j < |s|
    ensures multiset(Swapped(s, i, j)) == multiset(s)
  {
  }

  /** A shuffle loses and adds nothing. */
  lemma {:induction false} ShuffleKeeps(s: seq<char>, n: nat, draws: seq<nat>)
    requires n <= |s| && Draws(draws, n)
    ensures multiset(Shuffled(s, n, draws)) == multiset(s)
    decreases n
  {
    if n > 1 {
      SwapKeeps(s, n - 1, draws[0]);
      ShuffleKeeps(Swapped(s, n - 1, draws[0]), n - 1, draws[1..]);
    }
  }

  /** The same characters, and from position n on in the same order. */
  ghost predicate AgreeFrom(s: seq<char>, t: seq<char>, n: nat) {
    n <= |s| == |t| && s[n..] == t[n..] && multiset(s) == multiset(t)
  }

  lemma SameFront(s: seq<char>, t: seq<char>, n: nat)
    requires AgreeFrom(s, t, n)
    ensures multiset(s[..n]) == multiset(t[..n])
  {
    assert s == s[..n] + s[n..] && t == t[..n] + t[n..];
    assert multiset(s[..n]) == multiset(s) - multiset(s[n..]);
    assert multiset(t[..n]) == multiset(t) - multiset(t[n..]);
  }

  lemma SwapFixesLast(s: seq<char>, t: seq<char>, n: nat, j: nat)
    requires AgreeFrom(s, t, n) && j < n && s[j] == t[n - 1]
    ensures AgreeFrom(Swapped(s, n - 1, j), t, n - 1)
  {
    var u := Swapped(s, n - 1, j);
    SwapKeeps(s, n - 1, j);
    forall k | n <= k < |s| ensures u[k] == t[k] {
      assert u[k] == s[n..][k - n] == t[n..][k - n];
    }
    assert u[n - 1..] == t[n - 1..];
  }

  lemma WhereLastIs(s: seq<char>, t: seq<char>, n: nat) returns (j: nat)
    requires AgreeFrom(s, t, n) && n > 0
    ensures j < n && s[j] == t[n - 1]
  {
    SameFront(s, t, n);
    assert t[..n][n - 1] in multiset(s[..n]);
    j :| 0 <= j < n && s[..n][j] == t[n - 1];
  }

  lemma OneLeft(s: seq<char>, t: seq<char>, n: nat)
    requires AgreeFrom(s, t, n) && n <= 1
    ensures s == t
  {
    SameFront(s, t, n);
    assert n == 1 ==> s[..1] == [s[0]] && t[..1] == [t[0]] && s[0] in multiset(t[..1]);
    assert s == s[..n] + s[n..] && t == t[..n] + t[n..];
  }

  /** The draws lead from s to t. */
  ghost predicate Leads(s: seq<char>, n: nat, draws: seq<nat>, t: seq<char>) {
    n <= |s| && Draws(draws, n) && Shuffled(s, n, draws) == t
  }

  lemma OneMoreDraw(s: seq<char>, t: seq<char>, n: nat, j: nat, later: seq<nat>)
    requires 1 < n <= |s| && j < n && Leads(Swapped(s, n - 1, j), n - 1, later, t)
    ensures Leads(s, n, [j] + later, t)
  {
    assert ([j] + later)[1..] == later;
  }

  lemma FirstDraw(s: seq<char>, t: seq<char>, n: nat) returns (j: nat, u: seq<char>)
    requires AgreeFrom(s, t, n) && n > 1
    ensures j < n && u == Swapped(s, n - 1, j) && AgreeFrom(u, t, n - 1)
  {
    j := WhereLastIs(s, t, n);
    u := Swapped(s, n - 1, j);
    SwapFixesLast(s, t, n, j);
  }

  lemma NoDraw(s: seq<char>, t: seq<char>, n: nat)
    requires AgreeFrom(s, t, n) && n <= 1
    ensures Leads(s, n, [], t)
  {
    OneLeft(s, t, n);
  }

  /** And every order can come out of it, so no position gives a class away. */
  lemma {:induction false} EveryOrderCanCome(s: seq<char>, t: seq<char>, n: nat) returns (draws: seq<nat>)
    requires AgreeFrom(s, t, n)
    ensures Leads(s, n, draws, t)
    decreases n
  {
    if n <= 1 {
      draws := [];
      NoDraw(s, t, n);
    } else {
      var j, u := FirstDraw(s, t, n);
      var later := EveryOrderCanCome(u, t, n - 1);
      draws := [j] + later;
      OneMoreDraw(s, t, n, j, later);
    }
  }

  /** The shuffle of `random.shuffle`, in place, with the draws it makes. */
  method Shuffle(a: array<char>, draws: seq<nat>)
    requires Draws(draws, a.Length)
    modifies a
    ensures a[..] == Shuffled(old(a[..]), a.Length, draws)
    ensures multiset(a[..]) == multiset(old(a[..]))
  {
    var i := a.Length;
    ghost var k := 0;
    while i > 1
      invariant 0 <= i <= a.Length && k == a.Length - i && k <= |draws| && Draws(draws[k..], i)
      invariant Shuffled(a[..], i, draws[k..]) == Shuffled(old(a[..]), a.Length, draws)
    {
      ghost var before := a[..];
      var j := draws[a.Length - i];
      i := i - 1;
      a[i], a[j] := a[j], a[i];
      assert a[..] == Swapped(before, i, j);
      assert draws[k..][1..] == draws[k + 1..];
      k := k + 1;
    }
    ShuffleKeeps(old(a[..]), a.Length, draws);
  }

  /** Any draws. */
  method DrawPositions(n: nat) returns (draws: seq<nat>)
    ensures Draws(draws, n)
  {
    draws := [];
    while |draws| + 1 < n
      invariant n > 0 ==> |draws| <= n - 1
      invariant n == 0 ==> draws == []
      invariant forall k | 0 <= k < |draws| :: draws[k] <= n - 1 - k
    {
      var j: nat :| j <= n - 1 - |draws|;
      draws := draws + [j];
    }
  }

  /** At least two of a class, kept through whatever is added and however it is shuffled. */
  ghost predicate TwoOfEach(s: seq<char>) {
    CountIn(s, UPPER) >= 2 && CountIn(s, LOWER) >= 2 && CountIn(s, DIGITS) >= 2 && CountIn(s, SYMBOLS) >= 2
  }

  lemma TwoOfEachKept(s: seq<char>, t: seq<char>)
    requires TwoOfEach(s)
    ensures TwoOfEach(s + t)
    ensures multiset(s) == multiset(t) ==> TwoOfEach(t)
  {
    CountAdds(s, t, UPPER);
    CountAdds(s, t, LOWER);
    CountAdds(s, t, DIGITS);
    CountAdds(s, t, SYMBOLS);
    if multiset(s) == multiset(t) {
      CountIgnoresOrder(s, t, UPPER);
      CountIgnoresOrder(s, t, LOWER);
      CountIgnoresOrder(s, t, DIGITS);
      CountIgnoresOrder(s, t, SYMBOLS);
    }
  }

  lemma FourPairs(u: seq<char>, l: seq<char>, d: seq<char>, y: seq<char>)
    requires CountIn(u, UPPER) == CountIn(l, LOWER) == CountIn(d, DIGITS) == CountIn(y, SYMBOLS) == 2
    ensures TwoOfEach(u + l + d + y)
  {
    var pools := [UPPER, LOWER, DIGITS, SYMBOLS];
    forall k | 0 <= k < 4
      ensures CountIn(u + l + d + y, pools[k])
              == CountIn(u, pools[k]) + CountIn(l, pools[k]) + CountIn(d, pools[k]) + CountIn(y, pools[k])
    {
      CountAdds(u + l + d, y, pools[k]);
      CountAdds(u + l, d, pools[k]);
      CountAdds(u, l, pools[k]);
    }
    assert pools[0] == UPPER && pools[1] == LOWER && pools[2] == DIGITS && pools[3] == SYMBOLS;
  }

  predicate FromAlphabet(s: seq<char>) {
    forall i | 0 <= i < |s| :: s[i] in ALL_CHARS
  }

  /**
   For every length and every random outcome: refused below 16, else exactly that long, two of each class, and
   accepted.
   */
  method GenerateSecurePassword(length: nat) returns (password: Result<string, Unmet>)
    ensures length < 16 ==> password == Err(TooShort)
    ensures length >= 16 ==>
      && password.Ok? && |password.value| == length
      && TwoOfEach(password.value) && FromAlphabet(password.value)
      && ValidatePasswordPolicy(password.value).None?
  {
    if length < MIN_LENGTH {
      return Err(TooShort);
    }
    var chars := TwoFromEach();
    var more := Choices(ALL_CHARS, length - |chars|);
    TwoOfEachKept(chars, more);
    chars := chars + more;
    var a := new char[|chars|](i requires 0 <= i < |chars| => chars[i]);
    assert a[..] == chars;
    var draws := DrawPositions(a.Length);
    Shuffle(a, draws);
    var text := a[..];
    TwoOfEachKept(chars, text);
    AlphabetKept(chars, text);
    AcceptedExactly(text);
    return Ok(text);
  }

  method TwoFromEach() returns (chars: seq<char>)
    ensures |chars| == 8 && TwoOfEach(chars) && FromAlphabet(chars)
  {
    var u := Choices(UPPER, 2);
    var l := Choices(LOWER, 2);
    var d := Choices(DIGITS, 2);
    var y := Choices(SYMBOLS, 2);
    CountAll(u, UPPER);
    CountAll(l, LOWER);
    CountAll(d, DIGITS);
    CountAll(y, SYMBOLS);
    FourPairs(u, l, d, y);
    chars := u + l + d + y;
  }

  lemma AlphabetKept(s: seq<char>, t: seq<char>)
    requires FromAlphabet(s) && multiset(s) == multiset(t)
    ensures FromAlphabet(t)
  {
    forall i | 0 <= i < |t| ensures t[i] in ALL_CHARS {
      assert t[i] in multiset(s);
    }
  }
}
