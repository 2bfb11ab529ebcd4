/** Subsequences: what is left of a sequence when some of its elements are lost. */
module Subsequences {

  predicate Subsequence<T(==)>(a: seq<T>, b: seq<T>)
    decreases |b|
  {
    a == [] || (b != [] && ((a[0] == b[0] && Subsequence(a[1..], b[1..])) || Subsequence(a, b[1..])))
  }

  lemma {:induction false} Reflexive<T>(a: seq<T>)
    ensures Subsequence(a, a)
  {
    if a != [] { Reflexive(a[1..]); }
  }

  lemma {:induction false} Transitive<T>(a: seq<T>, b: seq<T>, c: seq<T>)
    requires Subsequence(a, b) && Subsequence(b, c)
    ensures Subsequence(a, c)
    decreases |c|
  {
    if a != [] {
      if b[0] == c[0] && Subsequence(b[1..], c[1..]) {
        if a[0] == b[0] && Subsequence(a[1..], b[1..]) {
          Transitive(a[1..], b[1..], c[1..]);
        } else {
          Transitive(a, b[1..], c[1..]);
        }
      } else {
        Transitive(a, b, c[1..]);
      }
    }
  }

  lemma {:induction false} SameSuffix<T>(a: seq<T>, b: seq<T>, c: seq<T>)
    requires Subsequence(a, b)
    ensures Subsequence(a + c, b + c)
    decreases |b|
  {
    if b == [] {
      assert a + c == b + c;
      Reflexive(b + c);
    } else {
      assert (b + c)[1..] == b[1..] + c;
      if a != [] && a[0] == b[0] && Subsequence(a[1..], b[1..]) {
        assert (a + c)[1..] == a[1..] + c;
        SameSuffix(a[1..], b[1..], c);
      } else {
        SameSuffix(a, b[1..], c);
      }
    }
  }

  lemma {:induction false} MorePrefix<T>(a: seq<T>, c: seq<T>, b: seq<T>)
    requires Subsequence(a, b)
    ensures Subsequence(a, c + b)
    decreases |c|
  {
    if c == [] {
      assert c + b == b;
    } else {
      assert (c + b)[1..] == c[1..] + b;
      MorePrefix(a, c[1..], b);
    }
  }

  lemma {:induction false} SamePrefix<T>(c: seq<T>, a: seq<T>, b: seq<T>)
    requires Subsequence(a, b)
    ensures Subsequence(c + a, c + b)
    decreases |c|
  {
    if c == [] {
      assert c + a == a && c + b == b;
    } else {
      assert (c + a)[1..] == c[1..] + a && (c + b)[1..] == c[1..] + b;
      SamePrefix(c[1..], a, b);
    }
  }

  lemma Drop<T>(a: seq<T>, i: nat)
    requires i <= |a|
    ensures Subsequence(a[i..], a)
  {
    Reflexive(a[i..]);
    MorePrefix(a[i..], a[..i], a[i..]);
    assert a[..i] + a[i..] == a;
  }

  lemma Take<T>(a: seq<T>, i: nat)
    requires i <= |a|
    ensures Subsequence(a[..i], a)
  {
    SamePrefix(a[..i], [], a[i..]);
    assert a[..i] + [] == a[..i] && a[..i] + a[i..] == a;
  }

  /** Two stages of a queue that loses elements make one: `read` then `more` are taken out, `recv`
      then `recvs` come in, and `mid` is what the queue holds between. */
  lemma Stages<T>(read: seq<T>, mid: seq<T>, start: seq<T>, more: seq<T>, recvs: seq<T>)
    requires Subsequence(read + mid, start) && Subsequence(more, mid + recvs)
    ensures Subsequence(read + more, start + recvs)
  {
    SamePrefix(read, more, mid + recvs);
    SameSuffix(read + mid, start, recvs);
    assert read + (mid + recvs) == read + mid + recvs;
    Transitive(read + more, read + mid + recvs, start + recvs);
  }
}
