/** The intrusive circular doubly linked list. */
module List {

  /** The link embedded in an entry, or a list head. */
  class Link {
    var prev: Link?
    var next: Link?

    constructor ()
      ensures prev == null && next == null
    {
      prev := null;
      next := null;
    }
  }

  type Links = seq<Link>

  ghost predicate Distinct(ns: Links) {
    forall i, j :: 0 <= i < j < |ns| ==> ns[i] != ns[j]
  }

  ghost function All(ns: Links): set<Link> { set x | x in ns }

  lemma AllAppend(a: Links, b: Links)
    ensures All(a + b) == All(a) + All(b)
  {}

  ghost predicate Apart(a: Links, b: Links) {
    forall x :: x in All(a) ==> x !in All(b)
  }

  ghost predicate Linked(a: Link, b: Link)
    reads a, b
  {
    a.next == b && b.prev == a
  }

  /** The link after the one in place `i`, going round. */
  ghost function After(ns: Links, i: nat): Link
    requires i < |ns|
  {
    if i + 1 < |ns| then ns[i + 1] else ns[0]
  }

  /** `ns` is the whole circle in list order, the head first. */
  ghost predicate Circle(ns: Links)
    reads All(ns)
  {
    |ns| > 0 && Distinct(ns) && forall i :: 0 <= i < |ns| ==> Linked(ns[i], After(ns, i))
  }

  lemma FollowLinks(ns: Links, i: nat)
    requires Circle(ns) && i < |ns|
    ensures ns[i].next == After(ns, i)
  {
    assert Linked(ns[i], After(ns, i));
  }

  lemma RoundEnds(ns: Links, k: nat)
    requires Distinct(ns) && k < |ns|
    ensures After(ns, k) == ns[0] <==> k == |ns| - 1
    ensures k < |ns| - 1 ==> After(ns, k) == ns[k + 1]
  {}

  /** Without the element in place `k`. */
  ghost function Without<T>(s: seq<T>, k: nat): (r: seq<T>)
    requires k < |s|
    ensures |r| == |s| - 1
  {
    s[..k] + s[k + 1..]
  }

  lemma WithoutDistinct(s: Links, k: nat)
    requires Distinct(s) && k < |s|
    ensures Distinct(Without(s, k))
    ensures forall x :: x in Without(s, k) <==> x in s && x != s[k]
  {
    var r := Without(s, k);
    forall x | x in s && x != s[k] ensures x in r {
      var i :| 0 <= i < |s| && s[i] == x;
      assert r[if i < k then i else i - 1] == x;
    }
  }

  method Init(head: Link)
    modifies head
    ensures Circle([head])
  {
    head.next := head;
    head.prev := head;
  }

  method InitBeside(head: Link, ghost other: Links)
    requires Circle(other) && head !in other
    modifies head
    ensures Circle([head]) && Circle(other)
  {
    Init(head);
  }

  /** The new link comes last. */
  method Add(link: Link, head: Link, ghost ns: Links)
    requires Circle(ns) && ns[0] == head && link !in ns
    modifies link, All(ns)
    ensures Circle(ns + [link])
  {
    assert Linked(ns[|ns| - 1], head);
    var prev := head.prev;
    head.prev := link;
    link.next := head;
    link.prev := prev;
    prev.next := link;
  }

  /** Any link but the head can leave; the others keep their order. */
  method Del(link: Link, ghost ns: Links, ghost k: nat)
    requires Circle(ns) && 0 < k < |ns| && ns[k] == link
    modifies All(ns)
    ensures Circle(Without(ns, k))
    ensures link.prev == null && link.next == null
  {
    assert Linked(ns[k - 1], link) && Linked(link, After(ns, k));
    var prev, next := link.prev, link.next;
    prev.next := next;
    next.prev := prev;
    link.prev := null;
    link.next := null;
    ghost var r := Without(ns, k);
    WithoutDistinct(ns, k);
    forall i | 0 <= i < |r| ensures Linked(r[i], After(r, i)) {
      ghost var j := if i < k then i else i + 1;
      assert r[i] == ns[j] && old(Linked(ns[j], After(ns, j)));
    }
  }

  /** 0 for an empty list, -1 otherwise. */
  method IsEmpty(head: Link, ghost ns: Links) returns (r: int)
    requires Circle(ns) && ns[0] == head
    ensures r == if |ns| == 1 then 0 else -1
  {
    FollowLinks(ns, 0);
    return if head.next == head then 0 else -1;
  }

  /** Deleting from one list leaves a list apart from it alone. */
  method DelBeside(link: Link, ghost ns: Links, ghost k: nat, ghost other: Links)
    requires Circle(ns) && 0 < k < |ns| && ns[k] == link && Circle(other) && Apart(ns, other)
    modifies All(ns)
    ensures Circle(Without(ns, k)) && Circle(other)
  {
    Del(link, ns, k);
  }

  method AddBeside(link: Link, head: Link, ghost ns: Links, ghost other: Links)
    requires Circle(ns) && ns[0] == head && link !in ns
    requires Circle(other) && Apart(ns, other) && link !in other
    modifies link, All(ns)
    ensures Circle(ns + [link]) && Circle(other)
  {
    Add(link, head, ns);
  }

  /** Deleting from one list and adding to another, as every change of queue does. */
  method Move(link: Link, ghost from: Links, ghost k: nat, head: Link, ghost to: Links)
    requires Circle(from) && 0 < k < |from| && from[k] == link
    requires Circle(to) && to[0] == head && Apart(from, to)
    modifies All(from), All(to)
    ensures Circle(Without(from, k)) && Circle(to + [link]) && Apart(Without(from, k), to + [link])
  {
    hide Circle;
    WithoutDistinct(from, k) by { DistinctLinks(from); }
    DelBeside(link, from, k, to);
    AddBeside(link, head, to, Without(from, k));
  }

  lemma DistinctLinks(ns: Links)
    requires Circle(ns)
    ensures Distinct(ns) && |ns| > 0
  {}
}
