/**
  The names under which the message gateway keeps mailboxes apart: the length-prefixed key of a
  lease row (and of a scope fence), and the queue name from which a dead letter's mailbox is
  recovered.  Strings are sequences of bytes.
*/
module Keys {
  import opened Basics

  function Label(c: Class): string {
    match c
    case Interactive => "interactive"
    case Bulk => "bulk"
  }

  function Digit(d: nat): char
    requires d < 10
  {
    ['0', '1', '2', '3', '4', '5', '6', '7', '8', '9'][d]
  }

  function Decimal(n: nat): string {
    if n < 10 then [Digit(n)] else Decimal(n / 10) + [Digit(n % 10)]
  }

  /** The key of a lease row and of a scope fence: `len(network):network` followed by the second name. */
  function LengthPrefixed(network: string, name: string): string {
    Decimal(|network|) + ":" + network + name
  }

  lemma {:induction false} DecimalHasNoColon(n: nat)
    ensures ':' !in Decimal(n) && |Decimal(n)| > 0
    decreases n
  {
    if n >= 10 {
      DecimalHasNoColon(n / 10);
    }
  }

  lemma {:induction false} DecimalInjective(m: nat, n: nat)
    requires Decimal(m) == Decimal(n)
    ensures m == n
    decreases m + n
  {
    DecimalHasNoColon(m / 10);
    DecimalHasNoColon(n / 10);
    if m >= 10 && n >= 10 {
      var a, b := Decimal(m / 10), Decimal(n / 10);
      assert Decimal(m)[..|a|] == a && Decimal(n)[..|b|] == b;
      assert Decimal(m)[|a|] == Digit(m % 10) && Decimal(n)[|b|] == Digit(n % 10);
      DecimalInjective(m / 10, n / 10);
    }
  }

  /** The part before the first separator and the part after it are determined. */
  lemma CutAtFirst(sep: char, a: string, b: string, a': string, b': string)
    requires sep !in a && sep !in a' && a + [sep] + b == a' + [sep] + b'
    ensures a == a' && b == b'
  {
    var s := a + [sep] + b;
    assert s[|a|] == sep && s[|a'|] == sep;
    assert forall i | 0 <= i < |a'| :: s[i] == a'[i] != sep;
    assert forall i | 0 <= i < |a| :: s[i] == a[i] != sep;
    assert |a| == |a'|;
    assert s[..|a|] == a && s[..|a|] == a';
    assert s[|a| + 1..] == b && s[|a| + 1..] == b';
  }

  /** Distinct (network, name) pairs never share a row or a fence. */
  lemma LengthPrefixedInjective(network: string, name: string, network': string, name': string)
    requires LengthPrefixed(network, name) == LengthPrefixed(network', name')
    ensures network == network' && name == name'
  {
    DecimalHasNoColon(|network|);
    DecimalHasNoColon(|network'|);
    var n, n' := Decimal(|network|), Decimal(|network'|);
    assert LengthPrefixed(network, name) == n + [':'] + (network + name);
    assert LengthPrefixed(network', name') == n' + [':'] + (network' + name');
    CutAtFirst(':', n, network + name, n', network' + name');
    DecimalInjective(|network|, |network'|);
    assert (network + name)[..|network|] == network && (network' + name')[..|network|] == network';
    assert (network + name)[|network|..] == name && (network' + name')[|network|..] == name';
  }

  // ----- Queue names -----

  type Digest = string -> string

  ghost predicate Dotless(digest: Digest) { forall n :: '.' !in digest(n) }

  function Dot(a: string, b: string): string { a + ['.'] + b }

  /** `ws.cs.<network digest>.<principal>.<class>` */
  function QueueName(digest: Digest, network: string, principal: string, c: Class): string {
    Dot("ws", Dot("cs", Dot(digest(network), Dot(principal, Label(c)))))
  }

  /** `str::split` on dots. */
  function Split(s: string): (parts: seq<string>)
    ensures |parts| >= 1
  {
    if s == [] then [[]]
    else if s[0] == '.' then [[]] + Split(s[1..])
    else var rest := Split(s[1..]); [[s[0]] + rest[0]] + rest[1..]
  }

  function PrincipalFromQueueName(digest: Digest, queue: string, network: string): Option<string> {
    var parts := Split(queue);
    if |parts| == 5 && parts[0] == "ws" && parts[1] == "cs" && parts[2] == digest(network) then Some(parts[3]) else None
  }

  lemma {:induction false} SplitAtDot(a: string, b: string)
    ensures Split(Dot(a, b)) == Split(a) + Split(b)
    decreases |a|
  {
    var x := Dot(a, b);
    if a == [] {
      assert x[1..] == b;
    } else {
      SplitAtDot(a[1..], b);
      assert x[0] == a[0] && x[1..] == Dot(a[1..], b);
      SplitStep(x);
      SplitStep(a);
      hide Split;
      Regroup([a[0]], Split(a[1..]), Split(b));
    }
  }

  lemma Regroup(h: string, x: seq<string>, y: seq<string>)
    requires x != []
    ensures [[]] + (x + y) == [[]] + x + y
    ensures [h + (x + y)[0]] + (x + y)[1..] == [h + x[0]] + x[1..] + y
  {
  }

  lemma SplitStep(s: string)
    requires s != []
    ensures var rest := Split(s[1..]); Split(s) == if s[0] == '.' then [[]] + rest else [[s[0]] + rest[0]] + rest[1..]
  {
  }

  lemma {:induction false} SplitDotless(a: string)
    ensures |Split(a)| == 1 <==> '.' !in a
    ensures '.' !in a ==> Split(a) == [a]
    decreases |a|
  {
    if a != [] {
      SplitDotless(a[1..]);
      assert a == [a[0]] + a[1..];
    }
  }

  lemma QueueNameParts(digest: Digest, network: string, principal: string, c: Class)
    requires Dotless(digest)
    ensures Split(QueueName(digest, network, principal, c))
            == ["ws", "cs", digest(network)] + Split(principal) + [Label(c)]
  {
    var h, l := digest(network), Label(c);
    SplitDotless("ws");
    SplitDotless("cs");
    SplitDotless(h);
    SplitDotless(l);
    hide Split, Dot;
    SplitAtDot(principal, l);
    SplitAtDot(h, Dot(principal, l));
    SplitAtDot("cs", Dot(h, Dot(principal, l)));
    SplitAtDot("ws", Dot("cs", Dot(h, Dot(principal, l))));
  }

  /** A dead letter's mailbox is recovered from its queue name exactly when the principal has no dot. */
  lemma QueueNameRoundTripIff(digest: Digest, network: string, principal: string, c: Class)
    requires Dotless(digest)
    ensures var found := PrincipalFromQueueName(digest, QueueName(digest, network, principal, c), network);
            if '.' in principal then found == None else found == Some(principal)
  {
    QueueNameParts(digest, network, principal, c);
    SplitDotless(principal);
  }

  /** Distinct mailboxes have distinct queues, dots or not. */
  lemma QueueNameInjective(digest: Digest, network: string, principal: string, c: Class, network': string,
      principal': string, c': Class)
    requires Dotless(digest) && (forall a, b | digest(a) == digest(b) :: a == b)
    requires QueueName(digest, network, principal, c) == QueueName(digest, network', principal', c')
    ensures network == network' && principal == principal' && c == c'
  {
    var h, h', l, l' := digest(network), digest(network'), Label(c), Label(c');
    var p, p' := Dot(principal, l), Dot(principal', l');
    CutDot("ws", Dot("cs", Dot(h, p)), "ws", Dot("cs", Dot(h', p')));
    CutDot("cs", Dot(h, p), "cs", Dot(h', p'));
    CutDot(h, p, h', p');
    LastOf(principal, l);
    LastOf(principal', l');
    assert p[..|p| - |l| - 1] == principal && p'[..|p'| - |l'| - 1] == principal';
  }

  lemma CutDot(a: string, b: string, a': string, b': string)
    requires '.' !in a && '.' !in a' && Dot(a, b) == Dot(a', b')
    ensures a == a' && b == b'
  {
    CutAtFirst('.', a, b, a', b');
  }

  lemma LastOf(a: string, b: string)
    requires b != []
    ensures Dot(a, b)[|Dot(a, b)| - 1] == b[|b| - 1]
  {
  }
}
