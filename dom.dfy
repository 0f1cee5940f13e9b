/**
 * The two presentation containers of the page (`#ar-container` and
 * `#fallback-container`): a `hidden` class flag and a list of child nodes.
 */
module Dom {

  /** The nodes the core puts into a container. */
  datatype Node =
    | ExitButton            // the "Exit AR" button added once at start-up
    | XrCanvas(id: nat)     // the canvas of one immersive-session attempt
    | ViewerCanvas          // the canvas of the in-page fallback viewer

  /** The observable value of a container. */
  datatype Panel = Panel(hidden: bool, children: seq<Node>)

  /** The child list after `removeChild(n)`; a node that is absent leaves it as it is. */
  function RemoveNode(s: seq<Node>, n: Node): (r: seq<Node>)
    ensures n !in r
    ensures forall m :: m in r <==> m in s && m != n
    ensures n !in s ==> r == s
    ensures multiset(r) == multiset(s)[n := 0]
    ensures |r| <= |s| && (n in s ==> |r| < |s|)
  {
    if s == [] then []
    else
      assert s == [s[0]] + s[1..];
      if s[0] == n then RemoveNode(s[1..], n)
      else [s[0]] + RemoveNode(s[1..], n)
  }

  /** Removal works piecewise: the children before and after keep their order. */
  lemma {:induction false} RemoveNodeOverConcat(a: seq<Node>, b: seq<Node>, n: Node)
    ensures RemoveNode(a + b, n) == RemoveNode(a, n) + RemoveNode(b, n)
    decreases |a|
  {
    if a != [] {
      assert (a + b)[0] == a[0] && (a + b)[1..] == a[1..] + b;
      RemoveNodeOverConcat(a[1..], b, n);
    } else {
      assert a + b == b;
    }
  }

  /**
   * A DOM child occurs once; removing it closes the gap at its index and
   * keeps the order of every other child.
   */
  lemma RemoveNodeAt(s: seq<Node>, n: Node, k: nat)
    requires k < |s| && s[k] == n && n !in s[..k] && n !in s[k+1..]
    ensures RemoveNode(s, n) == s[..k] + s[k+1..]
  {
    assert s == s[..k] + ([s[k]] + s[k+1..]);
    RemoveNodeOverConcat(s[..k], [s[k]] + s[k+1..], n);
    RemoveNodeOverConcat([s[k]], s[k+1..], n);
  }

  class Container {
    var hidden: bool
    var children: seq<Node>

    function View(): Panel
      reads this
    {
      Panel(hidden, children)
    }

    constructor(hidden: bool)
      ensures View() == Panel(hidden, [])
    {
      this.hidden := hidden;
      children := [];
    }

    /** `classList.add('hidden')` */
    method Hide()
      modifies this
      ensures View() == old(View()).(hidden := true)
    {
      hidden := true;
    }

    /** `classList.remove('hidden')` */
    method Show()
      modifies this
      ensures View() == old(View()).(hidden := false)
    {
      hidden := false;
    }

    /** `appendChild(n)` */
    method AppendChild(n: Node)
      modifies this
      ensures View() == old(View()).(children := old(children) + [n])
    {
      children := children + [n];
    }

    /** `removeChild(n)`, which the DOM allows only for a current child. */
    method RemoveChild(n: Node)
      requires n in children
      modifies this
      ensures View() == old(View()).(children := RemoveNode(old(children), n))
    {
      children := RemoveNode(children, n);
    }

    /** `while (c.firstChild) c.removeChild(c.firstChild)` */
    method RemoveAllChildren()
      modifies this
      ensures View() == old(View()).(children := [])
    {
      while children != []
        invariant hidden == old(hidden)
        decreases |children|
      {
        RemoveChild(children[0]);
      }
    }
  }

  /** addExitButton: one exit button appended to the container. */
  method AddExitButton(container: Container)
    modifies container
    ensures container.View() == old(container.View()).(children := old(container.children) + [ExitButton])
  {
    container.AppendChild(ExitButton);
  }
}
