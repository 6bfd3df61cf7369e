/**
 * BaseWindow: the window type clients derive from. It owns a GUIObject (the
 * C++ base class), the registration latch `initialized` and the class
 * descriptor `wc`; its window procedure binds instances to handles through
 * the OS-maintained user-data slot, and `show` runs the message loop.
 */
module BaseWindows {
  import opened Win
  import opened GuiObjects
  import opened WindowClasses
  import opened Dispatch

  const CustomWindowClass: string := "CustomWindowClass"

  /**
   * The OS state the window procedure touches: the per-handle user-data
   * slot (GWLP_USERDATA), whether PostQuitMessage was called, and logs of
   * the calls made to handleMessage and to DefWindowProc.
   */
  class WindowManager {
    var userData: map<HWND, BaseWindow>
    var quitPosted: bool
    ghost var forwarded: seq<(BaseWindow, Message)>
    ghost var defaulted: seq<(HWND, Message)>

    constructor ()
      ensures State() == ProcState(map[], false, [], [])
    {
      userData, quitPosted := map[], false;
      forwarded, defaulted := [], [];
    }

    ghost function State(): ProcState<BaseWindow>
      reads this
    {
      ProcState(userData, quitPosted, forwarded, defaulted)
    }
  }

  function AsOption(w: BaseWindow?): Option<BaseWindow>
  {
    if w != null then Some(w) else None
  }

  /**
   * The window procedure. `created` is the instance in the creation payload
   * of a WM_NCCREATE; `handle` stands for the instance's handleMessage and
   * `def` for DefWindowProc.
   */
  method WndProc(wm: WindowManager, hwnd: HWND, msg: Message, created: BaseWindow?,
                 handle: (BaseWindow, Message) -> LRESULT, def: (HWND, Message) -> LRESULT)
    returns (result: LRESULT)
    requires msg.kind == WM_NCCREATE ==> created != null
    modifies wm, if msg.kind == WM_NCCREATE && created != null then {created.obj} else {}
    ensures (wm.State(), result) ==
            WndProcSpec(old(wm.State()), hwnd, msg, AsOption(created), handle, def)
    ensures msg.kind == WM_NCCREATE ==>
              created.obj.hwnd == hwnd &&
              unchanged(created.obj`name, created.obj`hinstance, created.obj`additionalData,
                        created.obj`style, created.obj`createCalls)
  {
    var pThis: BaseWindow?;
    if msg.kind == WM_NCCREATE {
      pThis := created;
      wm.userData := wm.userData[hwnd := created];
      pThis.obj.hwnd := hwnd;
    } else {
      pThis := if hwnd in wm.userData then wm.userData[hwnd] else null;
    }

    if msg.kind == WM_DESTROY {
      wm.quitPosted := true;
      return 0;
    }

    if pThis != null {
      result := handle(pThis, msg);
      wm.forwarded := wm.forwarded + [(pThis, msg)];
    } else {
      result := def(hwnd, msg);
      wm.defaulted := wm.defaulted + [(hwnd, msg)];
    }
  }

  /**
   * The `while (GetMessage(...) > 0)` loop of `show`: translate and dispatch
   * each fetched message until GetMessage returns a value <= 0.
   */
  method MessageLoop(wm: WindowManager, inputs: seq<Fetched>,
                     handle: (BaseWindow, Message) -> LRESULT, def: (HWND, Message) -> LRESULT)
    returns (ghost dispatched: nat)
    requires Stops(inputs) && Posted(inputs)
    modifies wm
    ensures (wm.State(), dispatched) == Pump(old(wm.State()), inputs, handle, def)
  {
    ghost var total := Pump(wm.State(), inputs, handle, def);
    var queue := inputs;
    dispatched := 0;
    while queue[0].result > 0
      invariant Stops(queue) && Posted(queue)
      invariant dispatched <= total.1
      invariant Pump(wm.State(), queue, handle, def) == (total.0, total.1 - dispatched)
      decreases |queue|
    {
      ghost var before := wm.State();
      PumpStep(before, queue, handle, def);
      var _ := WndProc(wm, queue[0].hwnd, queue[0].msg, null, handle, def);
      assert wm.State() == WndProcSpec(before, queue[0].hwnd, queue[0].msg, None, handle, def).0;
      queue := queue[1..];
      dispatched := dispatched + 1;
    }
    PumpDone(wm.State(), queue, handle, def);
  }

  class BaseWindow {
    const obj: GUIObject
    var initialized: bool
    var wc: WndClass
    /** The GDI+ and RegisterClass calls this window has made. */
    ghost var osCalls: seq<OsCall>

    /**
     * All four constructors of the source: the title defaults to "" and the
     * geometry to CW_USEDEFAULT. The creation payload is the window itself.
     */
    constructor (title: string := "", x: int := CW_USEDEFAULT, y: int := CW_USEDEFAULT,
                 width: int := CW_USEDEFAULT, height: int := CW_USEDEFAULT)
      ensures fresh(obj) && !initialized && wc == ZeroClass && osCalls == []
      ensures obj.className == CustomWindowClass && obj.name == title && GetTitle() == title
      ensures obj.x == x && obj.y == y && obj.width == width && obj.height == height
      ensures obj.parent == null && obj.id == 0 && obj.hinstance == NULL
      ensures obj.additionalData == this
      ensures obj.style == DefaultStyle | WS_OVERLAPPEDWINDOW
      ensures obj.hwnd == NULL && obj.createCalls == []
    {
      obj := new GUIObject.Top(CustomWindowClass, title, x, y, width, height, NULL, null);
      initialized := false;
      wc := ZeroClass;
      osCalls := [];
      new;
      obj.additionalData := this;
      obj.style := obj.style | WS_OVERLAPPEDWINDOW;
    }

    /** The registration-relevant state, as the value WindowClasses.Step works on. */
    ghost function Snapshot(): ClassState
      reads this, obj
    {
      ClassState(initialized, wc, obj.hinstance, osCalls, obj.className)
    }

    /** Registers the window class once; `accepted` is what RegisterClass returns. */
    method Initialize(env: Env, accepted: bool)
      modifies this, obj
      ensures Snapshot() == Step(old(Snapshot()), ClassOp.Initialize(accepted), env)
      ensures !old(initialized) ==> GetWindowClass() == RegisteredClass(obj.className, env)
      ensures unchanged(obj`name, obj`additionalData, obj`style, obj`hwnd, obj`createCalls)
    {
      if initialized {
        return;
      }
      InitializeRegisters(Snapshot(), accepted, env);
      osCalls := osCalls + [GdiplusStartup];
      wc := wc.(lpszClassName := Some(obj.className));
      wc := wc.(hInstance := env.moduleHandle);
      obj.hinstance := wc.hInstance;
      wc := wc.(lpfnWndProc := BaseWindowProc);
      SetDefaultWindowAttributes(env);
      osCalls := osCalls + [RegisterClass(wc)];
      if accepted {
        initialized := true;
      }
    }

    method SetDefaultWindowAttributes(env: Env)
      modifies this
      ensures Snapshot() == ConfigureAll(old(Snapshot()), DefaultAttributes, env)
    {
      DefaultsInOrder(Snapshot(), env);
      SetIcon(env, NULL, IDI_APPLICATION);
      SetCursor(env, NULL, IDI_APPLICATION);
      SetBackground(COLOR_WINDOW + 1);
      SetMenuName(None);
      SetStyle(0);
      SetWindowExtraBytes(0);
      SetClassExtraBytes(0);
    }

    /**
     * Runs the message loop over the results of successive GetMessage calls,
     * then shuts GDI+ down. `dispatched` counts the loop's iterations.
     */
    method Show(wm: WindowManager, inputs: seq<Fetched>,
                handle: (BaseWindow, Message) -> LRESULT, def: (HWND, Message) -> LRESULT)
      returns (shown: bool, ghost dispatched: nat)
      requires Stops(inputs) && Posted(inputs)
      modifies this, wm
      ensures shown == obj.IsCreated()
      ensures !shown ==> dispatched == 0 && unchanged(this) && unchanged(wm)
      ensures shown ==>
                (wm.State(), dispatched) == Pump(old(wm.State()), inputs, handle, def) &&
                osCalls == old(osCalls) + [GdiplusShutdown]
      ensures initialized == old(initialized) && wc == old(wc)
    {
      if !obj.IsCreated() {
        return false, 0;
      }
      dispatched := MessageLoop(wm, inputs, handle, def);
      osCalls := osCalls + [GdiplusShutdown];
      shown := true;
    }

    /** The class descriptor: the one registered, once `initialize` has succeeded. */
    function GetWindowClass(): (c: WndClass)
      reads this
      ensures c == wc
    {
      wc
    }

    /** The title is the GUIObject's window name. */
    function GetTitle(): (title: string)
      reads obj
      ensures title == obj.name
    {
      obj.name
    }

    method SetTitle(title: string)
      modifies obj
      ensures obj.name == title && GetTitle() == title
      ensures unchanged(obj`hinstance, obj`additionalData, obj`style, obj`hwnd, obj`createCalls)
    {
      obj.name := title;
    }

    /* The descriptor setters: each writes its one field, and only before registration. */

    method SetIcon(env: Env, hinstance: HINSTANCE, iconName: ResourceId)
      modifies this
      ensures Snapshot() == Configure(old(Snapshot()), Icon(hinstance, iconName), env)
      ensures wc == if old(initialized) then old(wc)
                    else old(wc).(hIcon := env.loadIcon(hinstance, iconName))
    {
      if !initialized {
        wc := wc.(hIcon := env.loadIcon(hinstance, iconName));
      }
    }

    method SetCursor(env: Env, hinstance: HINSTANCE, cursorName: ResourceId)
      modifies this
      ensures Snapshot() == Configure(old(Snapshot()), Cursor(hinstance, cursorName), env)
      ensures wc == if old(initialized) then old(wc)
                    else old(wc).(hCursor := env.loadCursor(hinstance, cursorName))
    {
      if !initialized {
        wc := wc.(hCursor := env.loadCursor(hinstance, cursorName));
      }
    }

    method SetMenuName(menuName: Option<string>)
      modifies this
      ensures forall env :: Snapshot() == Configure(old(Snapshot()), MenuName(menuName), env)
      ensures wc == if old(initialized) then old(wc) else old(wc).(lpszMenuName := menuName)
    {
      if !initialized {
        wc := wc.(lpszMenuName := menuName);
      }
    }

    method SetBackground(color: HBRUSH)
      modifies this
      ensures forall env :: Snapshot() == Configure(old(Snapshot()), Background(color), env)
      ensures wc == if old(initialized) then old(wc) else old(wc).(hbrBackground := color)
    {
      if !initialized {
        wc := wc.(hbrBackground := color);
      }
    }

    method SetStyle(style: bv32)
      modifies this
      ensures forall env :: Snapshot() == Configure(old(Snapshot()), Style(style), env)
      ensures wc == if old(initialized) then old(wc) else old(wc).(style := style)
    {
      if !initialized {
        wc := wc.(style := style);
      }
    }

    method SetWindowExtraBytes(nBytes: int)
      modifies this
      ensures forall env :: Snapshot() == Configure(old(Snapshot()), WindowExtraBytes(nBytes), env)
      ensures wc == if old(initialized) then old(wc) else old(wc).(cbWndExtra := nBytes)
    {
      if !initialized {
        wc := wc.(cbWndExtra := nBytes);
      }
    }

    method SetClassExtraBytes(nBytes: int)
      modifies this
      ensures forall env :: Snapshot() == Configure(old(Snapshot()), ClassExtraBytes(nBytes), env)
      ensures wc == if old(initialized) then old(wc) else old(wc).(cbClsExtra := nBytes)
    {
      if !initialized {
        wc := wc.(cbClsExtra := nBytes);
      }
    }
  }

  /**
   * The documented lifecycle: declare, initialize, create, show. Creation
   * delivers WM_NCCREATE with the window as payload; the loop then fetches a
   * mouse move and a WM_DESTROY before GetMessage returns 0.
   */
  method CreateShowDestroy(env: Env, handle: (BaseWindow, Message) -> LRESULT,
                           def: (HWND, Message) -> LRESULT)
    returns (registered: bool, created: bool, shown: bool, quitPosted: bool,
             ghost handled: seq<Message>, ghost defaulted: nat)
    ensures registered && created && shown && quitPosted
    ensures handled == [Message(WM_NCCREATE, 0, 0), Message(WM_MOUSEMOVE, 0, 0x0032_0064)]
    ensures defaulted == 0
  {
    var w := new BaseWindow("W", CW_USEDEFAULT, CW_USEDEFAULT, 800, 600);
    w.Initialize(env, true);
    registered := w.initialized;
    assert w.obj.hwnd == NULL;
    var wm := new WindowManager();
    var h: HWND := 7;
    created := w.obj.Create(h);
    assert created && w.obj.hwnd == h;
    // CreateWindow sends WM_NCCREATE before it returns; here it is delivered after.
    var _ := WndProc(wm, h, Message(WM_NCCREATE, 0, 0), w, handle, def);
    assert wm.userData == map[h := w] && !wm.quitPosted;
    assert wm.forwarded == [(w, Message(WM_NCCREATE, 0, 0))];
    assert w.obj.IsCreated();
    var move := Message(WM_MOUSEMOVE, 0, 0x0032_0064);
    var inputs := [Fetched(1, h, move), Fetched(1, h, Message(WM_DESTROY, 0, 0)),
                   Fetched(0, h, Message(WM_QUIT, 0, 0))];
    MoveThenDestroy(wm.State(), h, move, handle, def);
    ghost var n;
    shown, n := w.Show(wm, inputs, handle, def);
    assert wm.forwarded == [(w, Message(WM_NCCREATE, 0, 0)), (w, move)];
    quitPosted := wm.quitPosted;
    // Every message handleMessage received, in order.
    ghost var fw := wm.forwarded;
    handled := seq(|fw|, k requires 0 <= k < |fw| => fw[k].1);
    defaulted := |wm.defaulted|;
  }
}
