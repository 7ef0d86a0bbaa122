/**
 * The script-side node proxy `LView` and the UI-thread dispatcher it posts
 * to. A proxy wraps one DOM element and, once created, one native view. Every
 * change to the view tree is a task appended to the dispatcher's FIFO queue;
 * `MainHandler.Step` runs the head task. The renderer's collaborators
 * (`createView`, `renderStyle`) are not modelled beyond their outcome: each
 * call to `Step` says whether view creation throws a render failure and
 * whether style application throws an attribute-apply failure.
 */
module Bridge {
  import opened Wrappers
  import opened Styles
  import ChildList

  /** A DOM element. Its tag, id and kind are fixed at parse time; `setParent` updates the parent link. */
  class Element {
    const tagName: string
    const id: string
    /** The renderer builds a `ViewGroup` for container tags and a leaf view otherwise. */
    const isContainer: bool
    var parent: Element?

    constructor (tagName: string, id: string, isContainer: bool)
      ensures this.tagName == tagName && this.id == id && this.isContainer == isContainer
      ensures parent == null
    {
      this.tagName := tagName;
      this.id := id;
      this.isContainer := isContainer;
      parent := null;
    }
  }

  /** A native view, tagged with the element it was rendered from. */
  class View {
    const element: Element
    /** The group's children, in drawing order (empty for a leaf view). */
    var children: seq<View>
    /** The group this view was added to, if any. */
    var parent: View?
    /** The style attributes applied to this view so far. */
    var attrs: StyleMap
    /**
     * Whether a layout pass has been requested by a style application
     * (`requestLayout` after `renderStyle`); the layout requests that
     * `addView` and `removeView` make on their own are not tracked here.
     */
    var layoutRequested: bool

    /** `instanceof ViewGroup`. */
    predicate IsGroup()
    {
      element.isContainer
    }

    /** A freshly rendered view: detached, childless, no attributes applied yet. */
    constructor (element: Element)
      ensures this.element == element
      ensures children == [] && parent == null && attrs == map[] && !layoutRequested
    {
      this.element := element;
      children := [];
      parent := null;
      attrs := map[];
      layoutRequested := false;
    }
  }

  /** A pending unit of UI work, holding the proxies its closure captured. */
  datatype Task =
    | MergeStyle(target: LView, styles: StyleMap)         // setAttribute on a proxy not yet created
    | ApplyStyle(target: LView, styles: StyleMap)         // setAttribute on a created proxy
    | Attach(parent: LView, child: LView, atFront: bool)  // appendChild (last) or insertBefore (index 0)
    | Remove(parent: LView, child: LView)                 // removeChild

  /** The proxies a task refers to. */
  function Proxies(t: Task): set<LView>
  {
    match t
    case MergeStyle(p, _) => {p}
    case ApplyStyle(p, _) => {p}
    case Attach(parent, child, _) => {parent, child}
    case Remove(parent, child) => {parent, child}
  }

  /** What held when the task was posted and still holds when it runs. */
  ghost predicate Ready(t: Task)
    reads Proxies(t)
  {
    match t
    case MergeStyle(p, _) => p.Valid()
    case ApplyStyle(p, _) => p.Valid() && p.created
    case Attach(parent, child, _) =>
      parent.Valid() && child.Valid() && parent.created && parent.element.isContainer && parent != child
    case Remove(parent, child) =>
      parent.Valid() && child.Valid() && parent.created && parent.element.isContainer
  }

  /** The native view of a proxy, as a frame. */
  function ViewFrame(p: LView): set<object>
    reads p
  {
    if p.view == null then {} else {p.view}
  }

  /** The script-side proxy for one DOM node. */
  class LView {
    const element: Element
    var view: View?
    var created: bool
    var added: bool
    /** Inline styles waiting for the view to be created; `None` once consumed. */
    var inlineStyle: Buffer

    /**
     * The proxy invariant: added implies created; a proxy has a view exactly
     * when it is created, and that view is tagged with the proxy's element;
     * a created proxy's buffer has been consumed.
     */
    ghost predicate Valid()
      reads this
    {
      && (added ==> created)
      && (created <==> view != null)
      && (created ==> inlineStyle == None)
      && (view != null ==> view.element == element)
    }

    /** A proxy built by script code for a parsed element: neither created nor added. */
    constructor (element: Element, inlineStyle: Buffer)
      ensures Valid()
      ensures this.element == element && this.inlineStyle == inlineStyle
      ensures view == null && !created && !added
    {
      this.element := element;
      this.inlineStyle := inlineStyle;
      view := null;
      created := false;
      added := false;
    }

    /** A proxy over a view found in the live tree: created and added, with no buffer. */
    constructor Wrap(v: View)
      ensures Valid()
      ensures element == v.element && view == v
      ensures created && added && inlineStyle == None
    {
      element := v.element;
      inlineStyle := None;
      view := v;
      created := true;
      added := true;
    }

    /**
     * `setAttribute`: posts a merge into the buffer while the proxy is not
     * created, and an application of the new styles to the live view once it
     * is. Nothing changes at call time.
     */
    method SetAttribute(d: MainHandler, styles: StyleMap)
      requires Valid() && d.Valid()
      modifies d
      ensures d.Valid()
      ensures d.tasks == old(d.tasks) + [if created then ApplyStyle(this, styles) else MergeStyle(this, styles)]
    {
      if created {
        d.Post(ApplyStyle(this, styles));
      } else {
        d.Post(MergeStyle(this, styles));
      }
    }

    /**
     * The guard of `appendChild` and `insertBefore`, checked at call time
     * only: this proxy is created with a group view, and the argument is a
     * proxy that is neither created nor added (`null` stands for an argument
     * that is not a proxy).
     */
    predicate CanAttach(arg: LView?)
      reads this, arg
    {
      created && arg != null && view != null && view.IsGroup() && !arg.created && !arg.added
    }

    /** `appendChild`: posts an attach of `arg` as the last child when the guard holds, else does nothing. */
    method AppendChild(d: MainHandler, arg: LView?)
      requires Valid() && (arg != null ==> arg.Valid()) && d.Valid()
      modifies d
      ensures d.Valid()
      ensures CanAttach(arg) ==> d.tasks == old(d.tasks) + [Attach(this, arg, false)]
      ensures !CanAttach(arg) ==> d.tasks == old(d.tasks)
    {
      if created && arg != null && view != null && view.IsGroup() {
        if !arg.created {
          if !arg.added {
            d.Post(Attach(this, arg, false));
          }
        }
      }
    }

    /** `insertBefore`: as `appendChild`, but the view goes in at index 0. */
    method InsertBefore(d: MainHandler, arg: LView?)
      requires Valid() && (arg != null ==> arg.Valid()) && d.Valid()
      modifies d
      ensures d.Valid()
      ensures CanAttach(arg) ==> d.tasks == old(d.tasks) + [Attach(this, arg, true)]
      ensures !CanAttach(arg) ==> d.tasks == old(d.tasks)
    {
      if created && arg != null && view != null && view.IsGroup() {
        if !arg.created {
          if !arg.added {
            d.Post(Attach(this, arg, true));
          }
        }
      }
    }

    /**
     * `removeChild`: posts a removal when this proxy is added, the argument
     * is a proxy and this view is a group; the task re-checks the child.
     */
    method RemoveChild(d: MainHandler, arg: LView?)
      requires Valid() && (arg != null ==> arg.Valid()) && d.Valid()
      modifies d
      ensures d.Valid()
      ensures added && arg != null && view.IsGroup() ==> d.tasks == old(d.tasks) + [Remove(this, arg)]
      ensures !(added && arg != null && view.IsGroup()) ==> d.tasks == old(d.tasks)
    {
      if added && arg != null && view != null && view.IsGroup() {
        d.Post(Remove(this, arg));
      }
    }

    /** The posted merge: `putAll` into the buffer if it has not been consumed yet. */
    method RunMergeStyle(styles: StyleMap)
      requires Valid()
      modifies this
      ensures Valid()
      ensures inlineStyle == PutAll(old(inlineStyle), styles)
      ensures view == old(view) && created == old(created) && added == old(added)
    {
      if inlineStyle.Some? {
        inlineStyle := Some(inlineStyle.value + styles);
      }
    }

    /**
     * The posted application on a created proxy: only the newly parsed map is
     * rendered onto the existing view, then a layout is requested; an
     * attribute-apply failure skips both. The buffer is not touched.
     */
    method RunApplyStyle(styles: StyleMap, styleFails: bool)
      requires Valid() && created
      modifies view
      ensures view.attrs == if styleFails then old(view.attrs) else old(view.attrs) + styles
      ensures view.layoutRequested == (old(view.layoutRequested) || !styleFails)
      ensures view.children == old(view.children) && view.parent == old(view.parent)
    {
      if !styleFails {
        view.attrs := view.attrs + styles;
        view.layoutRequested := true;
      }
    }

    /**
     * The posted attach, run with this proxy as the parent. The child's DOM
     * parent is set first, before view creation, so it stays set even when
     * creation throws. A render failure then aborts: the child and the tree
     * are as they were. Otherwise the child gets a new view, its buffer is
     * rendered onto it (an attribute-apply failure is swallowed and renders
     * nothing), the view is inserted last or at index 0, the child becomes
     * created and added, and its buffer is consumed.
     */
    method RunAttach(child: LView, atFront: bool, createFails: bool, styleFails: bool)
      requires Valid() && child.Valid() && created && element.isContainer && this != child
      modifies child, child.element, view
      ensures Valid() && child.Valid()
      ensures view == old(view)
      ensures child.element.parent == element
      ensures createFails ==>
        && child.view == old(child.view) && child.created == old(child.created) && child.added == old(child.added)
        && child.inlineStyle == old(child.inlineStyle)
        && view.children == old(view.children) && view.parent == old(view.parent)
        && view.attrs == old(view.attrs) && view.layoutRequested == old(view.layoutRequested)
      ensures !createFails ==>
        && fresh(child.view) && child.view.element == child.element && child.view.parent == view
        && child.view.children == [] && !child.view.layoutRequested
        && child.view.attrs == (if styleFails then map[] else Applied(old(child.inlineStyle)))
        && child.created && child.added && child.inlineStyle == None
        && view.children == ChildList.AddView(old(view.children), child.view, atFront)
        && view.parent == old(view.parent)
        && view.attrs == old(view.attrs) && view.layoutRequested == old(view.layoutRequested)
    {
      child.element.parent := element;
      if createFails {
        return;
      }
      var v := new View(child.element);
      child.view := v;
      var pending := child.inlineStyle;
      if !styleFails {
        v.attrs := v.attrs + Applied(pending);
      }
      child.created := true;
      view.children := ChildList.AddView(view.children, v, atFront);
      v.parent := view;
      child.added := true;
      child.inlineStyle := None;
    }

    /**
     * The posted removal, run with this proxy as the parent: only a child
     * still added is removed from this view (a no-op on the list when it is
     * another group's child); it is then no longer added but stays created.
     */
    method RunRemove(child: LView)
      requires Valid() && child.Valid() && created && element.isContainer
      modifies view, child, ViewFrame(child)
      ensures Valid() && child.Valid()
      ensures view == old(view) && child.view == old(child.view)
      ensures child.created == old(child.created) && child.inlineStyle == old(child.inlineStyle)
      ensures !old(child.added) ==> !child.added && view.children == old(view.children)
      ensures old(child.added) ==>
        && !child.added
        && view.children == ChildList.RemoveView(old(view.children), child.view)
        && (child.view in old(view.children) ==> child.view.parent == null)
      ensures view.attrs == old(view.attrs) && view.layoutRequested == old(view.layoutRequested)
      ensures child.view != view ==> view.parent == old(view.parent)
      ensures child.view != null ==>
        child.view.attrs == old(child.view.attrs) && child.view.layoutRequested == old(child.view.layoutRequested)
      ensures child.view != null && child.view != view ==> child.view.children == old(child.view.children)
      ensures child.view != null && !(old(child.added) && child.view in old(view.children)) ==>
        child.view.parent == old(child.view.parent)
    {
      if child.added {
        var cv := child.view;
        var g := view;
        var found := ChildList.IndexOfChild(g.children, cv) >= 0;
        assert found <==> cv in g.children;
        var remaining := ChildList.RemoveView(g.children, cv);
        g.children := remaining;
        if found {
          cv.parent := null;
        }
        child.added := false;
      }
    }

    /** `id`: the element's id once created, "" before. */
    method Id() returns (r: string)
      requires Valid()
      ensures created ==> r == element.id
      ensures !created ==> r == ""
    {
      r := "";
      if created {
        r := view.element.id;
      }
    }

    /** `tagName`: the element's tag once created, "" before. */
    method TagName() returns (r: string)
      requires Valid()
      ensures created ==> r == element.tagName
      ensures !created ==> r == ""
    {
      if created {
        r := view.element.tagName;
      } else {
        r := "";
      }
    }

    /** `getAttribute`: the style value applied to the view under `name`; nil unless created and added. */
    method GetAttribute(name: string) returns (r: Option<string>)
      requires Valid()
      ensures r.Some? <==> created && added && name in view.attrs
      ensures r.Some? ==> r.value == view.attrs[name]
    {
      r := None;
      if added && created {
        if name in view.attrs {
          r := Some(view.attrs[name]);
        }
      }
    }

    /** `hasChildNode`: true only for a created, added group view with at least one child. */
    method HasChildNode() returns (r: bool)
      requires Valid()
      ensures r <==> created && added && view.IsGroup() && |view.children| > 0
    {
      r := false;
      if created && added {
        if view.IsGroup() {
          r := |view.children| > 0;
        }
      }
    }

    /** `parentNode`: a new created+added proxy over the parent group; nil unless created and added with a parent. */
    method ParentNode() returns (r: LView?)
      requires Valid()
      ensures r != null <==> created && added && view.parent != null && view.parent.IsGroup()
      ensures r != null ==> fresh(r)
      ensures r != null ==> r.Valid() && r.view == view.parent && r.element == view.parent.element
      ensures r != null ==> r.created && r.added && r.inlineStyle == None
    {
      r := null;
      if created && added {
        var p := view.parent;
        if p != null && p.IsGroup() {
          r := new LView.Wrap(p);
        }
      }
    }

    /**
     * `childNodes`: nil unless this proxy is added and its view a group;
     * otherwise one new created+added proxy per child view, in child order.
     */
    method ChildNodes() returns (r: Option<seq<LView>>)
      requires Valid()
      ensures r.Some? <==> added && view != null && view.IsGroup()
      ensures r.Some? ==> |r.value| == |view.children|
      ensures r.Some? ==> forall i :: 0 <= i < |r.value| ==> fresh(r.value[i])
      ensures r.Some? ==> forall i :: 0 <= i < |r.value| ==>
        r.value[i].Valid() && r.value[i].view == view.children[i] && r.value[i].created && r.value[i].added
    {
      if view != null && view.IsGroup() && added {
        var cs := view.children;
        var out: seq<LView> := [];
        var i := 0;
        while i < |cs|
          invariant 0 <= i <= |cs|
          invariant |out| == i
          invariant forall j :: 0 <= j < i ==> fresh(out[j])
          invariant forall j :: 0 <= j < i ==> out[j].Valid() && out[j].view == cs[j] && out[j].created && out[j].added
        {
          var proxy := new LView.Wrap(cs[i]);
          out := out + [proxy];
          i := i + 1;
        }
        r := Some(out);
      } else {
        r := None;
      }
    }
  }

  /** The UI-thread dispatcher: a FIFO queue of posted tasks, run one at a time to completion. */
  class MainHandler {
    var tasks: seq<Task>

    /** Every proxy some pending task refers to. */
    ghost function Footprint(): set<LView>
      reads this
    {
      set i, p | 0 <= i < |tasks| && p in Proxies(tasks[i]) :: p
    }

    /** Every pending task is still ready to run. */
    ghost predicate Valid()
      reads this, Footprint()
    {
      forall i :: 0 <= i < |tasks| ==> Ready(tasks[i])
    }

    /** The objects the head task may change. */
    ghost function HeadFrame(): set<object>
      reads this, if tasks == [] then {} else Proxies(tasks[0])
    {
      if tasks == [] then {} else TaskFrame(tasks[0])
    }

    constructor ()
      ensures Valid() && tasks == []
    {
      tasks := [];
    }

    /** `post`: enqueue at the tail and return at once. */
    method Post(t: Task)
      requires Valid() && Ready(t)
      modifies this
      ensures Valid()
      ensures tasks == old(tasks) + [t]
    {
      tasks := tasks + [t];
      assert forall i :: 0 <= i < |old(tasks)| ==> tasks[i] == old(tasks)[i];
    }

    /**
     * Runs the head task, if any, to completion. `createFails` and
     * `styleFails` are the renderer's outcomes for this task. Every proxy
     * that was valid stays valid, no proxy goes back to not created, and the
     * head task has its `Effect`.
     */
    method Step(createFails: bool, styleFails: bool)
      requires Valid()
      modifies this, HeadFrame()
      ensures Valid()
      ensures tasks == if old(tasks) == [] then [] else old(tasks)[1..]
      ensures forall p: LView :: old(allocated(p)) && old(p.Valid()) ==> p.Valid()
      ensures forall p: LView :: old(allocated(p)) && old(p.created) ==> p.created
      ensures old(tasks) != [] ==> Effect(old(tasks[0]), createFails, styleFails)
    {
      if tasks == [] {
        return;
      }
      var t := tasks[0];
      tasks := tasks[1..];
      Run(t, createFails, styleFails);
      forall i | 0 <= i < |tasks|
        ensures Ready(tasks[i])
      {
        var u := tasks[i];
        assert u == old(tasks)[i + 1];
        assert old(Ready(u));
        match u
        case MergeStyle(p, _) =>
        case ApplyStyle(p, _) =>
        case Attach(parent, child, _) =>
        case Remove(parent, child) =>
      }
    }
  }

  /** The objects a task may change when it runs. */
  ghost function TaskFrame(t: Task): set<object>
    reads Proxies(t)
  {
    match t
    case MergeStyle(p, _) => {p}
    case ApplyStyle(p, _) => ViewFrame(p)
    case Attach(parent, child, _) => {child, child.element} + ViewFrame(parent)
    case Remove(parent, child) => {child} + ViewFrame(parent) + ViewFrame(child)
  }

  /** The views and elements a task's effect is stated over. */
  ghost function TaskObjects(t: Task): set<object>
    reads Proxies(t)
  {
    match t
    case MergeStyle(p, _) => {p}
    case ApplyStyle(p, _) => {p} + ViewFrame(p)
    case Attach(parent, child, _) => {parent, child, child.element} + ViewFrame(parent) + ViewFrame(child)
    case Remove(parent, child) => {parent, child} + ViewFrame(parent) + ViewFrame(child)
  }

  /** What running task `t` did, given the renderer's outcomes. */
  twostate predicate Effect(t: Task, createFails: bool, styleFails: bool)
    reads TaskObjects(t)
  {
    match t
    case MergeStyle(p, styles) =>
      && p.inlineStyle == PutAll(old(p.inlineStyle), styles)
      && p.view == old(p.view) && p.created == old(p.created) && p.added == old(p.added)
    case ApplyStyle(p, styles) =>
      && p.view == old(p.view) && p.view != null
      && p.view.attrs == (if styleFails then old(p.view.attrs) else old(p.view.attrs) + styles)
      && p.view.layoutRequested == (old(p.view.layoutRequested) || !styleFails)
      && p.view.children == old(p.view.children) && p.view.parent == old(p.view.parent)
    case Attach(parent, child, atFront) =>
      && parent.view == old(parent.view) && parent.view != null
      && child.element.parent == parent.element
      && parent.view.parent == old(parent.view.parent)
      && parent.view.attrs == old(parent.view.attrs)
      && parent.view.layoutRequested == old(parent.view.layoutRequested)
      && (createFails ==>
            && child.view == old(child.view) && child.created == old(child.created)
            && child.added == old(child.added) && child.inlineStyle == old(child.inlineStyle)
            && parent.view.children == old(parent.view.children))
      && (!createFails ==>
            && child.view != null && fresh(child.view) && child.view.element == child.element
            && child.view.parent == parent.view
            && child.view.children == [] && !child.view.layoutRequested
            && child.view.attrs == (if styleFails then map[] else Applied(old(child.inlineStyle)))
            && child.created && child.added && child.inlineStyle == None
            && parent.view.children == ChildList.AddView(old(parent.view.children), child.view, atFront))
    case Remove(parent, child) =>
      && parent.view == old(parent.view) && parent.view != null && child.view == old(child.view)
      && !child.added && child.created == old(child.created) && child.inlineStyle == old(child.inlineStyle)
      && parent.view.children ==
           (if old(child.added) then ChildList.RemoveView(old(parent.view.children), child.view)
            else old(parent.view.children))
      && parent.view.attrs == old(parent.view.attrs)
      && parent.view.layoutRequested == old(parent.view.layoutRequested)
      && (child.view != parent.view ==> parent.view.parent == old(parent.view.parent))
      && (child.view != null ==>
            && child.view.attrs == old(child.view.attrs)
            && child.view.layoutRequested == old(child.view.layoutRequested)
            && (old(child.added) && child.view in old(parent.view.children) ==> child.view.parent == null)
            && (!(old(child.added) && child.view in old(parent.view.children)) ==>
                  child.view.parent == old(child.view.parent))
            && (child.view != parent.view ==> child.view.children == old(child.view.children)))
  }

  /** Runs one dequeued task: the body of the runnable that was posted for it. */
  method Run(t: Task, createFails: bool, styleFails: bool)
    requires Ready(t)
    modifies TaskFrame(t)
    ensures forall p: LView :: old(allocated(p)) && old(p.Valid()) ==> p.Valid()
    ensures forall p: LView :: old(allocated(p)) && old(p.created) ==> p.created
    ensures Effect(t, createFails, styleFails)
  {
    match t
    case MergeStyle(p, styles) =>
      p.RunMergeStyle(styles);
    case ApplyStyle(p, styles) =>
      p.RunApplyStyle(styles, styleFails);
    case Attach(parent, child, atFront) =>
      parent.RunAttach(child, atFront, createFails, styleFails);
    case Remove(parent, child) =>
      parent.RunRemove(child);
  }
}
