/**
 * Clients of the bridge: short call sequences followed by dispatcher steps,
 * each stating what the script thread and the view tree observe afterwards.
 */
module Scenarios {
  import opened Wrappers
  import opened Styles
  import ChildList
  import opened Bridge

  /**
   * A live container `root` and two pending proxies: `appendChild(a)`, then
   * `insertBefore(b)`, then both tasks run. `b` ends up first and `a` last,
   * each rendered with its own buffer, and both buffers are consumed.
   */
  method AppendThenInsert(d: MainHandler, root: LView, a: LView, b: LView)
    requires d.Valid() && d.tasks == []
    requires root.Valid() && root.created && root.added && root.element.isContainer
    requires a.Valid() && b.Valid() && !a.created && !b.created && a != b
    modifies d, a, b, a.element, b.element, root.view
    ensures d.tasks == []
    ensures root.view == old(root.view)
    ensures root.view.children == [b.view] + old(root.view.children) + [a.view]
    ensures a.Valid() && a.created && a.added && a.inlineStyle == None && a.view.attrs == Applied(old(a.inlineStyle))
    ensures b.Valid() && b.created && b.added && b.inlineStyle == None && b.view.attrs == Applied(old(b.inlineStyle))
    ensures a.element.parent == root.element && b.element.parent == root.element
    ensures a.view.children == [] && !a.view.layoutRequested && b.view.children == [] && !b.view.layoutRequested
  {
    root.AppendChild(d, a);
    root.InsertBefore(d, b);
    d.Step(false, false);
    d.Step(false, false);
  }

  /**
   * `appendChild(c)` twice before the dispatcher runs: the guard was checked
   * at call time only, so both tasks create a view. The group gains two
   * views of `c`'s element, and `c` keeps only the second.
   */
  method AppendTwiceBeforeDispatch(d: MainHandler, root: LView, c: LView)
    requires d.Valid() && d.tasks == []
    requires root.Valid() && root.created && root.element.isContainer
    requires c.Valid() && !c.created
    modifies d, c, c.element, root.view
    ensures d.tasks == []
    ensures root.view == old(root.view)
    ensures |root.view.children| == |old(root.view.children)| + 2
    ensures root.view.children[..|old(root.view.children)|] == old(root.view.children)
    ensures root.view.children[|old(root.view.children)| + 1] == c.view
    ensures root.view.children[|old(root.view.children)|] != c.view
    ensures root.view.children[|old(root.view.children)|].element == c.element
    ensures c.created && c.added && c.inlineStyle == None
  {
    root.AppendChild(d, c);
    root.AppendChild(d, c);
    d.Step(false, false);
    ghost var first := c.view;
    ghost var between := root.view.children;
    d.Step(false, false);
    assert root.view.children == between + [c.view];
    assert between[|old(root.view.children)|] == first;
  }

  /** The merge tasks that `setAttribute` posts for `ms` on a proxy that is not created. */
  function MergeTasks(p: LView, ms: seq<StyleMap>): seq<Task>
  {
    seq(|ms|, j requires 0 <= j < |ms| => MergeStyle(p, ms[j]))
  }

  /**
   * `setAttribute` called once per map of `ms` on a proxy that is not
   * created, then the dispatcher drained: the buffer is the in-order fold
   * of every map into the old buffer (see `MergeAllKeys` and `MergeAllLastWins`).
   */
  method SetAttributesWhilePending(d: MainHandler, p: LView, ms: seq<StyleMap>)
    requires d.Valid() && d.tasks == []
    requires p.Valid() && !p.created
    modifies d, p
    ensures d.tasks == []
    ensures p.Valid() && !p.created
    ensures p.inlineStyle == MergeAll(old(p.inlineStyle), ms)
  {
    PostMerges(d, p, ms);
    DrainMerges(d, p, ms);
  }

  /** The calls: each posts one merge task and changes nothing else. */
  method PostMerges(d: MainHandler, p: LView, ms: seq<StyleMap>)
    requires d.Valid() && d.tasks == []
    requires p.Valid() && !p.created
    modifies d
    ensures d.Valid() && d.tasks == MergeTasks(p, ms)
  {
    var i := 0;
    while i < |ms|
      invariant 0 <= i <= |ms|
      invariant d.Valid() && d.tasks == MergeTasks(p, ms[..i])
    {
      p.SetAttribute(d, ms[i]);
      assert MergeTasks(p, ms[..i + 1]) == MergeTasks(p, ms[..i]) + [MergeStyle(p, ms[i])];
      i := i + 1;
    }
    assert ms[..|ms|] == ms;
  }

  /** The dispatcher runs the merge tasks in order, folding each map into the buffer. */
  method DrainMerges(d: MainHandler, p: LView, ms: seq<StyleMap>)
    requires d.Valid() && d.tasks == MergeTasks(p, ms)
    requires p.Valid() && !p.created
    modifies d, p
    ensures d.tasks == []
    ensures p.Valid() && !p.created
    ensures p.inlineStyle == MergeAll(old(p.inlineStyle), ms)
  {
    ghost var buf0 := p.inlineStyle;
    assert ms[..0] == [];
    var k := 0;
    while k < |ms|
      invariant 0 <= k <= |ms|
      invariant d.Valid() && d.tasks == MergeTasks(p, ms[k..])
      invariant p.Valid() && !p.created
      invariant p.inlineStyle == MergeAll(buf0, ms[..k])
    {
      assert d.tasks[0] == MergeStyle(p, ms[k]);
      d.Step(false, false);
      assert d.tasks == MergeTasks(p, ms[k + 1..]);
      MergeAllSnoc(buf0, ms[..k], ms[k]);
      assert ms[..k + 1] == ms[..k] + [ms[k]];
      k := k + 1;
    }
    assert ms[..|ms|] == ms;
  }

  /**
   * `removeChild(c)` on the group that holds `c`'s view, the task run, then
   * `childNodes()`: no returned proxy wraps the removed view, and `c` is
   * still created but no longer added.
   */
  method RemoveThenChildNodes(d: MainHandler, parent: LView, c: LView) returns (nodes: Option<seq<LView>>)
    requires d.Valid() && d.tasks == []
    requires parent.Valid() && parent.added && parent.element.isContainer
    requires c.Valid() && c.added && parent != c
    requires ChildList.Distinct(parent.view.children)
    modifies d, c, parent.view, c.view
    ensures c.created && !c.added
    ensures nodes.Some?
    ensures forall i :: 0 <= i < |nodes.value| ==> nodes.value[i].view != c.view
  {
    ChildList.RemovedNotListed(parent.view.children, c.view);
    RemoveNow(d, parent, c);
    nodes := parent.ChildNodes();
  }

  /** `removeChild(c)` on a proxy that is added, with the task run at once. */
  method RemoveNow(d: MainHandler, parent: LView, c: LView)
    requires d.Valid() && d.tasks == []
    requires parent.Valid() && parent.added && parent.element.isContainer
    requires c.Valid() && c.added && parent != c
    modifies d, c, parent.view, c.view
    ensures parent.Valid() && parent.added && parent.view == old(parent.view)
    ensures c.created && !c.added && c.view == old(c.view)
    ensures parent.view.children == ChildList.RemoveView(old(parent.view.children), c.view)
  {
    parent.RemoveChild(d, c);
    assert d.tasks == [Remove(parent, c)];
    d.Step(false, false);
  }

  /**
   * `appendChild(c)`, then `setAttribute` on `c` before the queue runs: the
   * call sees `c` not yet created and posts a merge, but the attach task
   * runs first and consumes the buffer, so the merge finds it null. None of
   * `styles` that the buffer did not already hold reaches the view.
   */
  method MergeAfterAttachIsDropped(d: MainHandler, root: LView, c: LView, styles: StyleMap)
    requires d.Valid() && d.tasks == []
    requires root.Valid() && root.created && root.element.isContainer
    requires c.Valid() && !c.created
    modifies d, c, c.element, root.view
    ensures d.tasks == []
    ensures c.Valid() && c.created && c.added && c.inlineStyle == None
    ensures c.view.attrs == Applied(old(c.inlineStyle))
    ensures forall k :: k in styles && k !in Applied(old(c.inlineStyle)) ==> k !in c.view.attrs
  {
    root.AppendChild(d, c);
    c.SetAttribute(d, styles);
    d.Step(false, false);
    d.Step(false, false);
  }

  /**
   * `removeChild(c)` through a group `p` that does not hold `c`'s view, then
   * through the group `q` that does: the first task finds nothing to remove
   * but still marks `c` not added, so the second task skips the removal and
   * `childNodes()` on `q` still lists a proxy over `c`'s view.
   */
  method RemoveThroughOtherGroup(d: MainHandler, p: LView, q: LView, c: LView) returns (nodes: Option<seq<LView>>)
    requires d.Valid() && d.tasks == []
    requires p.Valid() && p.added && p.element.isContainer
    requires q.Valid() && q.added && q.element.isContainer
    requires c.Valid() && c.added && p != c && q != c
    requires c.view in q.view.children && c.view !in p.view.children && c.view != q.view
    modifies d, c, p.view, q.view, c.view
    ensures c.created && !c.added
    ensures c.view in q.view.children
    ensures nodes.Some? && exists i :: 0 <= i < |nodes.value| && nodes.value[i].view == c.view
  {
    ghost var cv := c.view;
    p.RemoveChild(d, c);
    assert d.tasks == [Remove(p, c)];
    d.Step(false, false);
    assert !c.added && c.view == cv && cv in q.view.children;
    assert q.Valid() && q.added;
    q.RemoveChild(d, c);
    assert d.tasks == [Remove(q, c)];
    d.Step(false, false);
    assert cv in q.view.children;
    nodes := q.ChildNodes();
    var j := ChildList.IndexOfChild(q.view.children, c.view);
    assert nodes.value[j].view == c.view;
  }
}
