/**
 * The accessibility snapshot the cleaner service searches: a tree of
 * `AccessibilityNodeInfo` values, and the post-order "first match" search
 * that both of the service's finders perform over it.
 */
module UiTree {
  import opened Wrappers

  /**
   * One `AccessibilityNodeInfo`: its view-id resource name, its text, its
   * enabled flag, its class name and its children in the order
   * `getAllChild()` yields them.
   */
  datatype Node = Node(
    id: Option<string>,
    text: Option<string>,
    enabled: bool,
    className: Option<string>,
    children: seq<Node>)

  /** Post-order listing of a tree: every child's subtree in order, then the node itself. */
  function PostOrder(n: Node): seq<Node>
    decreases n
  {
    PostOrderOf(n.children) + [n]
  }

  /** Post-order listing of a forest, tree after tree. */
  function PostOrderOf(cs: seq<Node>): seq<Node>
    decreases cs
  {
    if cs == [] then [] else PostOrder(cs[0]) + PostOrderOf(cs[1..])
  }

  /** The first node of `s` that satisfies `p`: the reference meaning of "first match". */
  function FirstMatch(s: seq<Node>, p: Node -> bool): (r: Option<Node>)
    ensures r.None? <==> forall k :: 0 <= k < |s| ==> !p(s[k])
    ensures r.Some? ==> exists k :: 0 <= k < |s| && s[k] == r.value && p(s[k]) &&
                          forall j :: 0 <= j < k ==> !p(s[j])
  {
    if s == [] then None
    else if p(s[0]) then Some(s[0])
    else
      var r := FirstMatch(s[1..], p);
      assert r.Some? ==> exists k :: 1 <= k < |s| && s[k] == r.value && p(s[k]) &&
                           forall j :: 0 <= j < k ==> !p(s[j]) by {
        if r.Some? {
          var k :| 0 <= k < |s[1..]| && s[1..][k] == r.value && p(s[1..][k]) &&
                   forall j :: 0 <= j < k ==> !p(s[1..][j]);
          assert s[k + 1] == r.value && p(s[k + 1]);
          forall j | 0 <= j < k + 1 ensures !p(s[j]) {
            if j > 0 { assert s[j] == s[1..][j - 1]; }
          }
        }
      }
      r
  }

  /**
   * The search both finders perform: recurse into each child in order and
   * return the first hit; only when no child subtree has one, test the node
   * itself.
   */
  function FindFirst(n: Node, p: Node -> bool): Option<Node>
    decreases n
  {
    match FindFirstIn(n.children, p)
    case Some(m) => Some(m)
    case None => if p(n) then Some(n) else None
  }

  /** The children loop of `FindFirst`: the first subtree that yields a hit wins. */
  function FindFirstIn(cs: seq<Node>, p: Node -> bool): Option<Node>
    decreases cs
  {
    if cs == [] then None
    else
      match FindFirst(cs[0], p)
      case Some(m) => Some(m)
      case None => FindFirstIn(cs[1..], p)
  }

  /** A first match in a concatenation is the first match of the front part, if it has one. */
  lemma {:induction false} FirstMatchAppend(a: seq<Node>, b: seq<Node>, p: Node -> bool)
    ensures FirstMatch(a + b, p) == if FirstMatch(a, p).Some? then FirstMatch(a, p) else FirstMatch(b, p)
    decreases |a|
  {
    if a != [] {
      assert (a + b)[0] == a[0];
      assert (a + b)[1..] == a[1..] + b;
      FirstMatchAppend(a[1..], b, p);
    } else {
      assert a + b == b;
    }
  }

  /** The recursive search returns exactly the first node in post-order that satisfies `p`. */
  lemma {:induction false} FindFirstIsFirstInPostOrder(n: Node, p: Node -> bool)
    ensures FindFirst(n, p) == FirstMatch(PostOrder(n), p)
    decreases n, 1
  {
    FindFirstInIsFirstInPostOrder(n.children, p);
    FirstMatchAppend(PostOrderOf(n.children), [n], p);
  }

  /** The children loop returns exactly the first node of the forest's post-order listing that satisfies `p`. */
  lemma {:induction false} FindFirstInIsFirstInPostOrder(cs: seq<Node>, p: Node -> bool)
    ensures FindFirstIn(cs, p) == FirstMatch(PostOrderOf(cs), p)
    decreases cs, 0
  {
    if cs != [] {
      FindFirstIsFirstInPostOrder(cs[0], p);
      FindFirstInIsFirstInPostOrder(cs[1..], p);
      FirstMatchAppend(PostOrder(cs[0]), PostOrderOf(cs[1..]), p);
    }
  }

  /**
   * A matching descendant always wins over the node itself: when some node
   * below `n` satisfies `p`, the hit is found among the descendants.
   */
  lemma DescendantBeforeSelf(n: Node, p: Node -> bool, d: Node)
    requires d in PostOrderOf(n.children) && p(d)
    ensures FindFirst(n, p).Some?
    ensures FindFirst(n, p).value in PostOrderOf(n.children)
  {
    FindFirstInIsFirstInPostOrder(n.children, p);
    var s := PostOrderOf(n.children);
    var i :| 0 <= i < |s| && s[i] == d;
    var r := FirstMatch(s, p);
    assert r.Some?;
    var k :| 0 <= k < |s| && s[k] == r.value && p(s[k]) && forall j :: 0 <= j < k ==> !p(s[j]);
  }
}
