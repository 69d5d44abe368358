/** Record keys and their order: a bucket lists its keys as byte strings, smallest first. */
module Keys {
  type Key = string

  predicate Less(a: Key, b: Key)
    decreases |b|
  {
    b != [] && (a == [] || a[0] < b[0] || (a[0] == b[0] && Less(a[1..], b[1..])))
  }

  lemma {:induction false} LessIsStrictTotal(a: Key, b: Key)
    ensures !(Less(a, b) && Less(b, a))
    ensures Less(a, b) || Less(b, a) || a == b
    ensures a == b ==> !Less(a, b)
    decreases |a|
  {
    if a != [] && b != [] {
      LessIsStrictTotal(a[1..], b[1..]);
      assert a == [a[0]] + a[1..] && b == [b[0]] + b[1..];
    }
  }

  lemma {:induction false} LessIsTransitive(a: Key, b: Key, c: Key)
    requires Less(a, b) && Less(b, c)
    ensures Less(a, c)
    decreases |a|
  {
    if a != [] && a[0] == b[0] == c[0] {
      LessIsTransitive(a[1..], b[1..], c[1..]);
    }
  }

  /** The keys a scan that stops after limit records reports. */
  ghost predicate IsFirst(chosen: set<Key>, keys: set<Key>, limit: nat) {
    && chosen <= keys
    && |chosen| == (if |keys| < limit then |keys| else limit)
    && forall a, b :: a in chosen && b in keys - chosen ==> Less(a, b)
  }
}
