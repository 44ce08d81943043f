/**
 * RootFrame: a frame that wraps one toolkit widget (a TGFrame), remembers its
 * engine and its RootFrame parent, and is registered with the engine for as
 * long as it lives.
 */
module RootFrames {
  import opened Common
  import opened FrameLists
  import opened RootEngines

  /** The calls a frame makes on the widget it wraps; the drawing they cause is the toolkit's. */
  datatype WidgetCall =
    | MapSubwindows(widget: Handle)
    | Layout(widget: Handle)
    | MapWindow(widget: Handle)
    | UnmapWindow(widget: Handle)

  /** What the IFrame pointer handed to the constructor as parent really points at. */
  datatype ParentRef =
    | NullParent
    | RootParent(frame: RootFrame)
    | OtherFrame(address: Handle)

  class RootFrame {
    /** This frame's address, under which it is registered. */
    const handle: Handle
    /** m_engine: null only for the ancestor. */
    const engine: RootEngine?
    /** m_parent: null only for the ancestor. */
    const parent: RootFrame?
    /** m_frame: the wrapped widget, possibly null. */
    const widget: Option<Handle>

    /** The member-wise part of the public constructor; registration is done by Create. */
    constructor Init(handle: Handle, engine: RootEngine, parent: RootFrame, widget: Option<Handle>)
      ensures this.handle == handle && this.engine == engine
      ensures this.parent == parent && this.widget == widget
    {
      this.handle := handle;
      this.engine := engine;
      this.parent := parent;
      this.widget := widget;
    }

    /** The private default constructor: no engine, no parent, no widget. */
    constructor Detached(handle: Handle)
      ensures this.handle == handle
      ensures engine == null && parent == null && widget == None
    {
      this.handle := handle;
      engine := null;
      parent := null;
      widget := None;
    }

    /** display(): map the widget and its sub-windows; with no widget, do nothing. */
    method Display() returns (calls: seq<WidgetCall>)
      ensures widget == None <==> calls == []
      ensures widget.Some? ==> calls == [MapSubwindows(widget.value), Layout(widget.value), MapWindow(widget.value)]
    {
      calls := [];
      if widget.Some? {
        calls := [MapSubwindows(widget.value), Layout(widget.value), MapWindow(widget.value)];
      }
    }

    /** unDisplay(): unmap the widget; with no widget, do nothing. */
    method UnDisplay() returns (calls: seq<WidgetCall>)
      ensures widget == None <==> calls == []
      ensures widget.Some? ==> calls == [UnmapWindow(widget.value)]
    {
      calls := [];
      if widget.Some? {
        calls := [UnmapWindow(widget.value)];
      }
    }

    /**
     * The destructor: unregister from the engine, if there is one. Deleting the
     * widget is the toolkit's business.
     */
    method Destroy()
      modifies engine
      ensures engine != null ==> engine.frames == Without(old(engine.frames), handle)
      ensures engine != null ==> handle !in engine.frames
    {
      if engine != null {
        engine.RemoveFrame(handle);
      }
    }
  }

  /**
   * The public constructor RootFrame(engine, parent, frame): the parent must be
   * a RootFrame (a null parent fails the dynamic_cast as well); on success the
   * new frame is appended to its engine's registry.
   */
  method Create(handle: Handle, engine: RootEngine, parent: ParentRef, widget: Option<Handle>)
    returns (r: Result<RootFrame>)
    modifies engine
    ensures r.Ok? <==> parent.RootParent?
    ensures r.Err? ==> r.error == LogicError("RootFrame constructor was passed a parent IFrame which is not a RootFrame")
    ensures r.Err? ==> engine.frames == old(engine.frames)
    ensures r.Ok? ==> fresh(r.value)
    ensures r.Ok? ==> r.value.handle == handle && r.value.engine == engine
    ensures r.Ok? ==> r.value.parent == parent.frame && r.value.widget == widget
    ensures r.Ok? ==> engine.frames == old(engine.frames) + [handle]
  {
    if !parent.RootParent? {
      return Err(LogicError("RootFrame constructor was passed a parent IFrame which is not a RootFrame"));
    }
    var frame := new RootFrame.Init(handle, engine, parent.frame, widget);
    engine.AddFrame(handle);
    r := Ok(frame);
  }

  /**
   * The storage behind the function-static object of ancestor(): empty until the
   * first call, then holding the one ancestor frame for good.
   */
  class AncestorStorage {
    /** The address the static ancestor object occupies. */
    const ancestorHandle: Handle
    var instance: RootFrame?

    ghost predicate Valid()
      reads this
    {
      instance != null ==>
        instance.handle == ancestorHandle && instance.engine == null &&
        instance.parent == null && instance.widget == None
    }

    constructor (ancestorHandle: Handle)
      ensures Valid() && instance == null && this.ancestorHandle == ancestorHandle
    {
      this.ancestorHandle := ancestorHandle;
      instance := null;
    }

    /**
     * ancestor(): the first call creates the ancestor with the default
     * constructor; every call returns that same object.
     */
    method Ancestor() returns (a: RootFrame)
      requires Valid()
      modifies this
      ensures Valid() && instance == a
      ensures old(instance) != null ==> a == old(instance)
      ensures old(instance) == null ==> fresh(a)
      ensures a.handle == ancestorHandle
      ensures a.engine == null && a.parent == null && a.widget == None
    {
      if instance == null {
        instance := new RootFrame.Detached(ancestorHandle);
      }
      a := instance;
    }
  }

  /** Two calls of ancestor() give the same frame, whose destruction touches no registry. */
  method AncestorIsShared(storage: AncestorStorage) returns (first: RootFrame, second: RootFrame)
    requires storage.Valid()
    modifies storage
    ensures first == second && first.engine == null
  {
    first := storage.Ancestor();
    second := storage.Ancestor();
  }

  /**
   * A top-level frame, parented by the ancestor, registers itself on
   * construction and its destruction restores the engine's registry.
   */
  method FrameLifetime(handle: Handle, engine: RootEngine, storage: AncestorStorage, widget: Option<Handle>)
    requires storage.Valid() && handle !in engine.frames
    modifies engine, storage
    ensures engine.frames == old(engine.frames)
  {
    var ancestor := storage.Ancestor();
    var r := Create(handle, engine, RootParent(ancestor), widget);
    assert engine.frames == old(engine.frames) + [handle];
    r.value.Destroy();
    RegisterThenUnregister(old(engine.frames), handle);
  }
}
