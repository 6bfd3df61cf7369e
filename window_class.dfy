/**
 * The window-class registration latch of BaseWindow as a state machine on
 * values: the guarded descriptor setters, `initialize` (GDI+ startup,
 * descriptor defaults, RegisterClass) and what runs of them can and cannot
 * change. The class BaseWindows.BaseWindow is proved to follow `Step`.
 */
module WindowClasses {
  import opened Win

  /** The registration-relevant state of one BaseWindow. */
  datatype ClassState = ClassState(
    initialized: bool,
    wc: WndClass,
    hinstance: HINSTANCE,
    osCalls: seq<OsCall>,
    className: string)

  /** One descriptor setter call, with its argument. */
  datatype Attribute =
    | Icon(iconModule: HINSTANCE, iconName: ResourceId)
    | Cursor(cursorModule: HINSTANCE, cursorName: ResourceId)
    | MenuName(menuName: Option<string>)
    | Background(brush: HBRUSH)
    | Style(classStyle: bv32)
    | WindowExtraBytes(windowBytes: int)
    | ClassExtraBytes(classBytes: int)

  /** One call a client makes on the class lifecycle; `accepted` is RegisterClass's answer. */
  datatype ClassOp = Set(attribute: Attribute) | Initialize(accepted: bool)

  /** The descriptor with one attribute written, loading icon and cursor through the OS. */
  function Write(wc: WndClass, a: Attribute, env: Env): WndClass
  {
    match a
    case Icon(m, n) => wc.(hIcon := env.loadIcon(m, n))
    case Cursor(m, n) => wc.(hCursor := env.loadCursor(m, n))
    case MenuName(n) => wc.(lpszMenuName := n)
    case Background(b) => wc.(hbrBackground := b)
    case Style(st) => wc.(style := st)
    case WindowExtraBytes(k) => wc.(cbWndExtra := k)
    case ClassExtraBytes(k) => wc.(cbClsExtra := k)
  }

  /** A setter: writes its field only while the class is not registered. */
  function Configure(s: ClassState, a: Attribute, env: Env): (r: ClassState)
    ensures s.initialized ==> r == s
    ensures !s.initialized ==> r == s.(wc := Write(s.wc, a, env))
  {
    if !s.initialized then s.(wc := Write(s.wc, a, env)) else s
  }

  /** Setter calls made one after another. */
  function ConfigureAll(s: ClassState, attrs: seq<Attribute>, env: Env): ClassState
    decreases |attrs|
  {
    if attrs == [] then s else ConfigureAll(Configure(s, attrs[0], env), attrs[1..], env)
  }

  /** The setter calls of `setDefaultWindowAttributes`, in order. */
  const DefaultAttributes: seq<Attribute> := [
    Icon(NULL, IDI_APPLICATION),
    Cursor(NULL, IDI_APPLICATION),
    Background(COLOR_WINDOW + 1),
    MenuName(None),
    Style(0),
    WindowExtraBytes(0),
    ClassExtraBytes(0)
  ]

  /**
   * The descriptor every running `initialize` registers: the class name, the
   * module handle, the base window procedure and the defaults. No field of it
   * comes from an earlier setter call.
   */
  function RegisteredClass(className: string, env: Env): WndClass
  {
    WndClass(
      style := 0,
      lpfnWndProc := BaseWindowProc,
      cbClsExtra := 0,
      cbWndExtra := 0,
      hInstance := env.moduleHandle,
      hIcon := env.loadIcon(NULL, IDI_APPLICATION),
      hCursor := env.loadCursor(NULL, IDI_APPLICATION),
      hbrBackground := COLOR_WINDOW + 1,
      lpszMenuName := None,
      lpszClassName := Some(className))
  }

  /** `initialize`, step by step as the source orders it. */
  function InitializeStep(s: ClassState, accepted: bool, env: Env): (r: ClassState)
    // A registered class returns at once.
    ensures s.initialized ==> r == s
    // Otherwise the latch follows RegisterClass's answer, and the trace ends with that call.
    ensures !s.initialized ==>
              r.initialized == accepted && r.className == s.className &&
              r.hinstance == env.moduleHandle &&
              r.osCalls == s.osCalls + [GdiplusStartup, RegisterClass(r.wc)]
  {
    if s.initialized then s
    else
      var started := s.(osCalls := s.osCalls + [GdiplusStartup]);
      var named := started.(wc := started.wc.(lpszClassName := Some(s.className),
                                                  hInstance := env.moduleHandle),
                            hinstance := env.moduleHandle);
      var withProc := named.(wc := named.wc.(lpfnWndProc := BaseWindowProc));
      ConfigureAllKeeps(withProc, DefaultAttributes, env);
      var defaulted := ConfigureAll(withProc, DefaultAttributes, env);
      var registered := defaulted.(osCalls := defaulted.osCalls + [RegisterClass(defaulted.wc)]);
      if accepted then registered.(initialized := true) else registered
  }

  function Step(s: ClassState, op: ClassOp, env: Env): ClassState
  {
    match op
    case Set(a) => Configure(s, a, env)
    case Initialize(accepted) => InitializeStep(s, accepted, env)
  }

  function Run(s: ClassState, ops: seq<ClassOp>, env: Env): ClassState
    decreases |ops|
  {
    if ops == [] then s else Run(Step(s, ops[0], env), ops[1..], env)
  }

  /** Setter calls on an unregistered class keep the latch, the OS trace and the module handle. */
  lemma {:induction false} ConfigureAllKeeps(s: ClassState, attrs: seq<Attribute>, env: Env)
    ensures var r := ConfigureAll(s, attrs, env);
      r.initialized == s.initialized && r.osCalls == s.osCalls &&
      r.hinstance == s.hinstance && r.className == s.className
    decreases |attrs|
  {
    if attrs != [] {
      ConfigureAllKeeps(Configure(s, attrs[0], env), attrs[1..], env);
    }
  }

  /** `setDefaultWindowAttributes` is its seven setter calls, one after another. */
  lemma DefaultsInOrder(s: ClassState, env: Env)
    ensures var d := DefaultAttributes;
      ConfigureAll(s, d, env) ==
        Configure(Configure(Configure(Configure(Configure(Configure(Configure(
          s, d[0], env), d[1], env), d[2], env), d[3], env), d[4], env), d[5], env), d[6], env)
  {
    var d := DefaultAttributes;
    var s1 := Configure(s, d[0], env);
    var s2 := Configure(s1, d[1], env);
    var s3 := Configure(s2, d[2], env);
    var s4 := Configure(s3, d[3], env);
    var s5 := Configure(s4, d[4], env);
    var s6 := Configure(s5, d[5], env);
    var s7 := Configure(s6, d[6], env);
    assert ConfigureAll(s6, d[6..], env) == s7 by {
      assert d[6..][1..] == [];
    }
    assert ConfigureAll(s5, d[5..], env) == s7 by {
      assert d[5..][1..] == d[6..];
    }
    assert ConfigureAll(s4, d[4..], env) == s7 by {
      assert d[4..][1..] == d[5..];
    }
    assert ConfigureAll(s3, d[3..], env) == s7 by {
      assert d[3..][1..] == d[4..];
    }
    assert ConfigureAll(s2, d[2..], env) == s7 by {
      assert d[2..][1..] == d[3..];
    }
    assert ConfigureAll(s1, d[1..], env) == s7 by {
      assert d[1..][1..] == d[2..];
    }
  }

  /**
   * A running `initialize` starts GDI+, registers exactly the descriptor
   * RegisteredClass(className, env), records the module handle and sets the
   * latch iff RegisterClass accepted.
   */
  lemma InitializeRegisters(s: ClassState, accepted: bool, env: Env)
    requires !s.initialized
    ensures var r := Step(s, Initialize(accepted), env);
      r.wc == RegisteredClass(s.className, env) &&
      r.osCalls == s.osCalls + [GdiplusStartup, RegisterClass(r.wc)] &&
      r.initialized == accepted && r.hinstance == env.moduleHandle &&
      r.className == s.className
  {
    var started := s.(osCalls := s.osCalls + [GdiplusStartup]);
    var named := started.(wc := started.wc.(lpszClassName := Some(s.className),
                                                hInstance := env.moduleHandle),
                          hinstance := env.moduleHandle);
    var withProc := named.(wc := named.wc.(lpfnWndProc := BaseWindowProc));
    DefaultsInOrder(withProc, env);
  }


  /** Once the class is registered, no run of setters or `initialize` calls changes anything. */
  lemma {:induction false} RegisteredIsFrozen(s: ClassState, ops: seq<ClassOp>, env: Env)
    requires s.initialized
    ensures Run(s, ops, env) == s
    decreases |ops|
  {
    if ops != [] {
      assert Step(s, ops[0], env) == s;
      RegisteredIsFrozen(s, ops[1..], env);
    }
  }

  /** Running two sequences of calls is running their concatenation. */
  lemma {:induction false} RunAppend(s: ClassState, ops1: seq<ClassOp>, ops2: seq<ClassOp>, env: Env)
    ensures Run(s, ops1 + ops2, env) == Run(Run(s, ops1, env), ops2, env)
    decreases |ops1|
  {
    if ops1 != [] {
      assert (ops1 + ops2)[1..] == ops1[1..] + ops2;
      RunAppend(Step(s, ops1[0], env), ops1[1..], ops2, env);
    } else {
      assert ops1 + ops2 == ops2;
    }
  }

  predicate SettersOnly(ops: seq<ClassOp>)
  {
    forall i | 0 <= i < |ops| :: ops[i].Set?
  }

  /** Setter calls never register and never set the latch. */
  lemma {:induction false} SettersKeepLatch(s: ClassState, ops: seq<ClassOp>, env: Env)
    requires SettersOnly(ops)
    ensures var r := Run(s, ops, env);
      r.initialized == s.initialized && r.osCalls == s.osCalls &&
      r.hinstance == s.hinstance && r.className == s.className
    decreases |ops|
  {
    if ops != [] {
      assert ops[0].Set?;
      SettersKeepLatch(Step(s, ops[0], env), ops[1..], env);
    }
  }

  /**
   * Whatever setter calls precede a successful `initialize`, the registered
   * descriptor is the same and is frozen from then on: no later call changes
   * the descriptor, the latch or the OS trace.
   */
  lemma ConfigureBeforeAndAfterRegistration(
    s: ClassState, before: seq<ClassOp>, after: seq<ClassOp>, env: Env)
    requires !s.initialized && SettersOnly(before)
    ensures var r := Run(s, before + [Initialize(true)] + after, env);
      r.initialized &&
      r.wc == RegisteredClass(s.className, env) &&
      r.osCalls == s.osCalls + [GdiplusStartup, RegisterClass(r.wc)]
  {
    var b := Run(s, before, env);
    SettersKeepLatch(s, before, env);
    InitializeRegisters(b, true, env);
    var i := Step(b, Initialize(true), env);
    assert Run(b, [Initialize(true)], env) == i;
    RunAppend(s, before, [Initialize(true)], env);
    RunAppend(s, before + [Initialize(true)], after, env);
    RegisteredIsFrozen(i, after, env);
  }

  /**
   * A rejected registration leaves the latch open: the next `initialize`
   * starts GDI+ and calls RegisterClass again, with the same descriptor.
   */
  lemma RejectedRegistrationRetries(s: ClassState, env: Env)
    requires !s.initialized
    ensures var r := Run(s, [Initialize(false), Initialize(true)], env);
      var wc := RegisteredClass(s.className, env);
      r.initialized &&
      r.osCalls == s.osCalls + [GdiplusStartup, RegisterClass(wc), GdiplusStartup, RegisterClass(wc)]
  {
    var wc := RegisteredClass(s.className, env);
    var s1 := Step(s, Initialize(false), env);
    InitializeRegisters(s, false, env);
    assert !s1.initialized && s1.className == s.className && s1.wc == wc;
    assert s1.osCalls == s.osCalls + [GdiplusStartup, RegisterClass(wc)];
    var s2 := Step(s1, Initialize(true), env);
    InitializeRegisters(s1, true, env);
    assert s2.initialized && s2.wc == wc;
    assert s2.osCalls == s1.osCalls + [GdiplusStartup, RegisterClass(wc)];
    RunPair(s, Initialize(false), Initialize(true), env);
  }

  lemma RunPair(s: ClassState, first: ClassOp, second: ClassOp, env: Env)
    ensures Run(s, [first, second], env) == Step(Step(s, first, env), second, env)
  {
    var ops := [first, second];
    var s1 := Step(s, first, env);
    var s2 := Step(s1, second, env);
    assert ops[1..] == [second];
    assert ops[1..][1..] == [];
    assert Run(s2, [], env) == s2;
    assert Run(s1, [second], env) == s2;
  }
}
