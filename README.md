# LView: the script-side node proxy of HtmlNative, in Dafny

HtmlNative renders HTML-like markup into an Android view tree and lets Lua
scripts change that tree. Scripts do this through `LView`, a proxy for one DOM
element. A proxy starts out pending. Once its native view exists it is
*created*, and once that view sits in a parent group it is *added*. A pending
proxy keeps its inline styles in a buffer until the view is built. Every
change to the view tree is posted, fire-and-forget, to the UI thread's FIFO
queue (`MainHandlerUtils.instance().post`).

This project models that proxy and makes the queue explicit:

- `Bridge.Element` is the DOM element: tag, id, kind, and a mutable parent link.
- `Bridge.View` is a native view: its element tag, ordered children, parent,
  the attributes applied to it, and a layout request flag. It is a group
  exactly when its element is a container.
- `Bridge.LView` is the proxy. It has the fields `view`, `created`, `added`
  and `inlineStyle`, updated in place. Its methods are the Lua closures
  (`setAttribute`, `appendChild`, `insertBefore`, `removeChild`,
  `childNodes`, `getAttribute`, `parentNode`, `hasChildNode`, `id`,
  `tagName`) and the bodies of the runnables they post (`Run…`).
- `Bridge.MainHandler` is the dispatcher: a sequence of `Task`s
  (`MergeStyle`, `ApplyStyle`, `Attach`, `Remove`). `Step` runs the head
  task. Two booleans given to `Step` choose the renderer's outcome: whether
  `createView` throws a render failure, and whether `renderStyle` throws an
  attribute-apply failure.
- `Styles` holds the style maps, `putAll` and the in-order fold of posted
  merges. `ChildList` holds `indexOfChild`, `addView` (last or at index 0)
  and `removeView` on a child list.
- `Scenarios` holds short clients that drive calls through the queue.

The proxy invariant `LView.Valid()` says four things: added implies created;
a proxy has a view exactly when it is created; that view is tagged with the
proxy's element; and a created proxy's buffer has been consumed. Every method
keeps it. `Step` keeps it for every proxy in the heap, and no proxy ever goes
back to not created.

Behaviour of the code that this model keeps, where a reader might expect
otherwise:

- `setAttribute` on a pending proxy changes nothing at call time. It posts a
  merge that runs only while the buffer still exists. A merge that runs after
  the attach task is a no-op.
- `setAttribute` on a created proxy renders only the newly parsed map onto
  the view, not the merged buffer.
- The attach guard is checked when the call is made, never when the task
  runs. Two `appendChild` calls made before the queue drains create two views
  (`Scenarios.AppendTwiceBeforeDispatch`). The group keeps both, and the
  proxy keeps only the second.
- The attach task sets the child's DOM parent before creating the view. A
  render failure therefore leaves the DOM parent set, while the flags, the
  buffer and the view tree stay as they were.
- The remove task re-checks only that the child is added. If the child's
  view is in another group, `removeView` leaves the list unchanged, and the
  child is still marked not added.
- `insertBefore` takes no reference node and always inserts at index 0.
- A `setAttribute` made after `appendChild` and before the queue runs is lost
  (`Scenarios.MergeAfterAttachIsDropped`).

## Model

| member | source | states |
|---|---|---|
| `Bridge.LView.constructor` | HtmlNativeAndroid/htmlnative-lib/src/main/java/com/mozz/htmlnative/script/lua/LView.java:47-56 | a proxy built for an element is valid, neither created nor added, has no view, and holds the given buffer |
| `Bridge.LView.Wrap` | HtmlNativeAndroid/htmlnative-lib/src/main/java/com/mozz/htmlnative/script/lua/LView.java:61-66 | a proxy over an existing view takes the view's element, is created and added, and has no buffer |
| `Bridge.LView.SetAttribute` | HtmlNativeAndroid/htmlnative-lib/src/main/java/com/mozz/htmlnative/script/lua/LView.java:81-124 | changes nothing but the queue; posts an apply task when created and a merge task otherwise |
| `Bridge.LView.RunMergeStyle` | HtmlNativeAndroid/htmlnative-lib/src/main/java/com/mozz/htmlnative/script/lua/LView.java:111-120 | the posted merge sets the buffer to `PutAll` of the old buffer and leaves the flags and view alone |
| `Bridge.LView.RunApplyStyle` | HtmlNativeAndroid/htmlnative-lib/src/main/java/com/mozz/htmlnative/script/lua/LView.java:89-106 | the posted apply renders only the new map onto the view and requests layout; an apply failure skips both; children, parent and buffer unchanged |
| `Bridge.LView.AppendChild` | HtmlNativeAndroid/htmlnative-lib/src/main/java/com/mozz/htmlnative/script/lua/LView.java:161-228 | posts an attach-last task exactly when this proxy is created with a group view and the argument is a proxy neither created nor added; otherwise changes nothing |
| `Bridge.LView.InsertBefore` | HtmlNativeAndroid/htmlnative-lib/src/main/java/com/mozz/htmlnative/script/lua/LView.java:230-298 | the same guard, posting an attach-at-index-0 task; otherwise changes nothing |
| `Bridge.LView.RunAttach` | HtmlNativeAndroid/htmlnative-lib/src/main/java/com/mozz/htmlnative/script/lua/LView.java:168-219 | sets the DOM parent even when creation fails; a render failure leaves child and tree unchanged; otherwise a fresh, childless view of the child's element with no layout request, carrying the buffer's styles (none on an apply failure) is inserted last or first, and the child is created, added and has its buffer consumed |
| `Bridge.LView.RemoveChild` | HtmlNativeAndroid/htmlnative-lib/src/main/java/com/mozz/htmlnative/script/lua/LView.java:300-321 | posts a remove task exactly when this proxy is added, the argument is a proxy and the view is a group; otherwise changes nothing |
| `Bridge.LView.RunRemove` | HtmlNativeAndroid/htmlnative-lib/src/main/java/com/mozz/htmlnative/script/lua/LView.java:306-314 | only a child still added is removed from this group's list, first occurrence only and the rest in order; its view loses its parent only if it was in that list, and keeps its parent otherwise; afterwards the child is not added, still created and keeps its buffer; no view's attributes or style layout flag change, and no other child list or parent link changes |
| `Bridge.LView.Id` | HtmlNativeAndroid/htmlnative-lib/src/main/java/com/mozz/htmlnative/script/lua/LView.java:126-139 | the proxy's element id when created, "" otherwise |
| `Bridge.LView.TagName` | HtmlNativeAndroid/htmlnative-lib/src/main/java/com/mozz/htmlnative/script/lua/LView.java:366-378 | the proxy's element tag when created, "" otherwise |
| `Bridge.LView.GetAttribute` | HtmlNativeAndroid/htmlnative-lib/src/main/java/com/mozz/htmlnative/script/lua/LView.java:343-364 | a value exactly when the proxy is created and added and the view has that attribute, and then it is the applied value |
| `Bridge.LView.HasChildNode` | HtmlNativeAndroid/htmlnative-lib/src/main/java/com/mozz/htmlnative/script/lua/LView.java:396-410 | true iff created, added, a group, and the view has at least one child |
| `Bridge.LView.ParentNode` | HtmlNativeAndroid/htmlnative-lib/src/main/java/com/mozz/htmlnative/script/lua/LView.java:380-393 | a proxy exactly when created, added and the view's parent is a group; that proxy is new, valid, created and added, and wraps the parent view |
| `Bridge.LView.ChildNodes` | HtmlNativeAndroid/htmlnative-lib/src/main/java/com/mozz/htmlnative/script/lua/LView.java:323-341 | nil unless added with a group view; otherwise one new, valid, created and added proxy per child view, in child order |
| `Bridge.MainHandler.Post` | HtmlNativeAndroid/htmlnative-lib/src/main/java/com/mozz/htmlnative/script/lua/LView.java:168-220 | a posted task goes to the tail of the queue; all pending tasks stay ready to run |
| `Bridge.MainHandler.Step` | HtmlNativeAndroid/htmlnative-lib/src/main/java/com/mozz/htmlnative/script/lua/LView.java:89-313 | removes the head task and gives it its `Effect`, which states the whole change to the objects the task may touch: what the task changes and that their other fields stay as they were; every valid proxy stays valid (so added implies created) and no created proxy becomes uncreated |
| `Bridge.Run` | HtmlNativeAndroid/htmlnative-lib/src/main/java/com/mozz/htmlnative/script/lua/LView.java:89-313 | one task's runnable: keeps every proxy valid, keeps created monotone, and has the task's `Effect` (its changes and the fields it leaves alone) |
| `Styles.PutAll` | HtmlNativeAndroid/htmlnative-lib/src/main/java/com/mozz/htmlnative/script/lua/LView.java:114-117 | a null buffer stays null; a live one gains the new keys, whose values override, and keeps the rest |
| `Styles.MergeAllSnoc` | HtmlNativeAndroid/htmlnative-lib/src/main/java/com/mozz/htmlnative/script/lua/LView.java:107-120 | one more posted merge extends the fold by one `putAll` |
| `Styles.MergeAll` | HtmlNativeAndroid/htmlnative-lib/src/main/java/com/mozz/htmlnative/script/lua/LView.java:212-214 | the fold of posted merges is live iff the starting buffer is: once consumed, no sequence of later merges brings it back |
| `Styles.MergeAllKeys` | HtmlNativeAndroid/htmlnative-lib/src/main/java/com/mozz/htmlnative/script/lua/LView.java:114-117 | after merging into a live buffer, a key is present iff the buffer or some merged map declares it |
| `Styles.MergeAllLastWins` | HtmlNativeAndroid/htmlnative-lib/src/main/java/com/mozz/htmlnative/script/lua/LView.java:114-117 | a key takes its value from the last merged map that declares it |
| `Styles.MergeAllUndeclared` | HtmlNativeAndroid/htmlnative-lib/src/main/java/com/mozz/htmlnative/script/lua/LView.java:114-117 | a key that no merged map declares keeps its value from the buffer |
| `ChildList.IndexOfChild` | HtmlNativeAndroid/htmlnative-lib/src/main/java/com/mozz/htmlnative/script/lua/LView.java:310 | the first position of the view among the children, or -1 exactly when it is not a child |
| `ChildList.AddView` | HtmlNativeAndroid/htmlnative-lib/src/main/java/com/mozz/htmlnative/script/lua/LView.java:203-206 | the view goes last (or first), and the other children keep their order |
| `ChildList.RemoveView` | HtmlNativeAndroid/htmlnative-lib/src/main/java/com/mozz/htmlnative/script/lua/LView.java:310 | a non-child leaves the list unchanged; otherwise the first occurrence is removed and the other children keep their order |
| `ChildList.RemovedNotListed` | HtmlNativeAndroid/htmlnative-lib/src/main/java/com/mozz/htmlnative/script/lua/LView.java:309-311 | in a list without repeats, the removed view is gone and the list stays without repeats |
| `ChildList.AddKeepsDistinct` | HtmlNativeAndroid/htmlnative-lib/src/main/java/com/mozz/htmlnative/script/lua/LView.java:274-277 | adding a view that is not yet a child keeps the list without repeats |
| `ChildList.RemoveUndoesAdd` | HtmlNativeAndroid/htmlnative-lib/src/main/java/com/mozz/htmlnative/script/lua/LView.java:203-209 | removing a freshly added view, at either end, restores the child list |
| `Scenarios.AppendThenInsert` | HtmlNativeAndroid/htmlnative-lib/src/main/java/com/mozz/htmlnative/script/lua/LView.java:175-214 | append a, insert b, run both: the children are b, the old ones, then a; each view is childless, carries its own buffer's styles, and both buffers are consumed |
| `Scenarios.AppendTwiceBeforeDispatch` | HtmlNativeAndroid/htmlnative-lib/src/main/java/com/mozz/htmlnative/script/lua/LView.java:164-209 | two appends before the queue runs add two distinct views of the child's element; the proxy keeps the second |
| `Scenarios.SetAttributesWhilePending` | HtmlNativeAndroid/htmlnative-lib/src/main/java/com/mozz/htmlnative/script/lua/LView.java:107-120 | after N calls on a pending proxy and a drained queue, the buffer is the in-order fold of the N maps |
| `Scenarios.PostMerges` | HtmlNativeAndroid/htmlnative-lib/src/main/java/com/mozz/htmlnative/script/lua/LView.java:108-111 | the calls post one merge task each, in order, and change nothing else |
| `Scenarios.DrainMerges` | HtmlNativeAndroid/htmlnative-lib/src/main/java/com/mozz/htmlnative/script/lua/LView.java:113-118 | running the merge tasks folds each map into the buffer in order and leaves the proxy pending |
| `Scenarios.RemoveThenChildNodes` | HtmlNativeAndroid/htmlnative-lib/src/main/java/com/mozz/htmlnative/script/lua/LView.java:303-334 | after removeChild runs, childNodes lists no proxy for the removed view, and the child is created but not added |
| `Scenarios.RemoveNow` | HtmlNativeAndroid/htmlnative-lib/src/main/java/com/mozz/htmlnative/script/lua/LView.java:303-313 | removeChild on an added group with the child added, then the task run: the child's view is removed from the list, and the child is created but not added |
| `Scenarios.MergeAfterAttachIsDropped` | HtmlNativeAndroid/htmlnative-lib/src/main/java/com/mozz/htmlnative/script/lua/LView.java:111-120 | a setAttribute made after appendChild but before the queue runs is lost: the attach consumes the buffer first, and no new key reaches the view |
| `Scenarios.RemoveThroughOtherGroup` | HtmlNativeAndroid/htmlnative-lib/src/main/java/com/mozz/htmlnative/script/lua/LView.java:309-311 | removeChild through a group that does not hold the child marks it not added anyway; a later removeChild on the real group is skipped and childNodes still lists the view |

## Left out

- The script worker thread (`HNScriptRunnerThread.java`) and its weak references are not modelled. Its only logic is a null check before running a script; the proxy operations are modelled as calls made in sequence.
- `IOUtils.java` is not modelled: it closes a stream and swallows `IOException`.
- Locks, `volatile` fields and thread interleaving are not modelled. One sequential queue stands for the UI thread, and each call or task runs atomically.
- `CssParser.parseInlineStyle` is not part of this model: `SetAttribute` receives the parsed map. The shared parser buffer goes with it.
- `HNRenderer.createView` is reduced to its outcome. It either fails or yields a fresh, childless, unstyled view of the child's element. The recursive rendering of the element's own DOM children, the style sheet, the sandbox context and `computeInheritStyle` are not modelled.
- `HNRenderer.renderStyle` is reduced to merging the given map into the view's applied attributes. On an attribute-apply failure nothing is applied; the partial application the real renderer may leave behind is not modelled. A null buffer applies nothing.
- `LayoutParamsLazyCreator` and the layout parameters given to `addView` are not modelled. The view's `layoutRequested` flag records only the `requestLayout` that follows a style application; the layout requests that `addView` and `removeView` make on the group are not tracked.
- Bridge.LView.GetAttribute: answers from the attributes applied to the view, not from `Styles.getStyle`'s own, inherited and layout-derived values, whose source is not part of this model.
- Lua marshalling is not modelled (`LuaTable`, `LuaString`, `type`, `typename`, `toString`). An argument that is not an `LView` is passed as `null`, and NIL is `None` or `null`.
- `className` is not modelled: it dereferences the view without checking that the proxy is created.
- A view is always tagged with its element, so `id`'s tag check always passes. Whether a view is a group follows its element's kind.
- A root view's parent (`ViewRootImpl`, not a `ViewGroup`) is modelled as no parent.
- The logging of caught render and attribute-apply failures (`e.printStackTrace()`) is not modelled; a caught failure only has the effect stated for it.
- Exceptions other than render and attribute-apply failures are not modelled (for example a `ClassCastException` or a `NullPointerException` from a collaborator).
- Distinct children are a precondition of `Scenarios.RemoveThenChildNodes`, not an invariant kept over the whole heap.
- Scenarios.SetAttributesWhilePending: holds only with no attach of the proxy queued ahead of the merges. A `setAttribute` made after `appendChild` but before the queue runs posts a merge (LView.java:111-120). That merge runs after the attach task has nulled the buffer (LView.java:212-214), so its styles are dropped. `Scenarios.MergeAfterAttachIsDropped` proves this.
- Scenarios.RemoveThenChildNodes: holds only for a child still marked added. A `removeChild` through a group that does not hold the child still clears its added flag (LView.java:309-311). A later `removeChild` on the group that holds it is then skipped, and `childNodes` there still lists the view. `Scenarios.RemoveThroughOtherGroup` proves this.
