// Finding and joining lines of text.
module Text {

  /** Index of the first newline, or the length when there is none. */
  function FindNewline(s: string): (i: nat)
    ensures i <= |s| && '\n' !in s[..i]
    ensures i < |s| ==> s[i] == '\n'
  {
    if s == "" || s[0] == '\n' then 0
    else
      var rest := FindNewline(s[1..]);
      assert s[..rest + 1] == [s[0]] + s[1..][..rest];
      1 + rest
  }

  /** The first newline is where one stands with none before it. */
  lemma {:induction false} NewlineIsFirst(s: string, n: nat)
    requires n <= |s| && '\n' !in s[..n]
    requires n < |s| ==> s[n] == '\n'
    ensures FindNewline(s) == n
  {
    var i := FindNewline(s);
    forall j | 0 <= j < n
      ensures s[j] != '\n'
    {
      assert s[j] == s[..n][j];
    }
    forall j | 0 <= j < i
      ensures s[j] != '\n'
    {
      assert s[j] == s[..i][j];
    }
  }

  lemma {:induction false} SplitAtNewline(a: string, b: string, i: nat)
    requires i < |a| && a[i] == '\n'
    ensures a == a[..i] + "\n" + a[i + 1..]
    ensures a + b == a[..i] + "\n" + (a[i + 1..] + b)
  {
  }

  lemma {:induction false} Associative<A>(a: seq<A>, b: seq<A>, c: seq<A>)
    ensures a + (b + c) == a + b + c
  {
    assert a + (b + c) == a + b + c;
  }
}
