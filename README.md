# mingl window core in Dafny

This project models the window lifecycle and message-routing core of the
`mingl` helper library (`BaseWindow` and `GUIObject`). A window is declared,
then `initialize()` registers its window class once, `create()` asks the OS
for a handle at most once, and `show()` runs the message loop. The static
window procedure binds the instance to its handle on `WM_NCCREATE`, posts
quit on `WM_DESTROY`, and sends every other message either to the instance's
`handleMessage` or to `DefWindowProc`.

Every Win32 and GDI+ call is abstract:

- `RegisterClass`'s answer and `CreateWindow`'s handle are method parameters.
- `GetModuleHandle`, `LoadIcon` and `LoadCursor` are the fields of an `Env` value.
- `handleMessage` and `DefWindowProc` are total-function parameters.
- GDI+ startup and shutdown, and `RegisterClass`, are recorded in a ghost trace (`osCalls`).
- The per-handle `GWLP_USERDATA` slot is a map from handle to window.
- `PostQuitMessage` is a flag.
- The results of successive `GetMessage` calls are a finite input sequence.

Files and modules:

- `win_api.dfy` (`Win`): handles (0 is null), the constants the core uses, `Message`,
  `WndClass` (the `WNDCLASS` descriptor), `Env` and the recorded OS calls.
- `gui_object.dfy` (`GuiObjects`): class `GUIObject` with its two constructors, `Create`,
  `IsCreated`, `GetWindowHandle`, the getters and the CreateWindow arguments.
- `window_class.dfy` (`WindowClasses`): the registration latch and the guarded descriptor
  setters as a state machine on values (`Step`, `Run`), with lemmas about runs of calls.
- `dispatch.dfy` (`Dispatch`): the routing rule of the window procedure (`WndProcSpec`)
  and the message loop (`Pump`) as functions on values, with lemmas about the loop.
- `base_window.dfy` (`BaseWindows`): the imperative classes. `WindowManager` holds the
  OS-side slot, the quit flag and logs. `BaseWindow` owns a `GUIObject` (the C++ base
  class), the latch and the descriptor. `WndProc` is the window procedure. Each method
  is proved to follow the value-level specification.

Facts the proofs bring out:

- `initialize` overwrites all ten `WNDCLASS` fields before it registers
  (`InitializeRegisters`). So setter calls made before `initialize` never reach
  `RegisterClass`, and setter calls made after a successful registration are
  ignored (`ConfigureBeforeAndAfterRegistration`). The only way to customise the
  class is to override `setDefaultWindowAttributes`.
- A rejected registration leaves the latch open. The next `initialize` starts GDI+
  again and registers again (`RejectedRegistrationRetries`). The GDI+ token of the
  first start is then overwritten, and `show` shuts down only the second one.
- `create` passes `id != 0 ? (HMENU) id : nullptr` as the menu. This equals `id`
  in every case, because `(HMENU) 0` is null (`CreateArguments`).
- `setCursor(nullptr, IDI_APPLICATION)` loads resource 32512. That is also the
  value of `IDC_ARROW`, so the default cursor is the arrow.

Two facts about registration state, as `basewindow.hpp` has it:

- The latch is per window object: `initialized` is a member of `BaseWindow`
  (basewindow.hpp:36), so two windows of the same class name each call
  `RegisterClass`. The OS rejects the second registration of that name, so the
  second window's latch stays open, and each of its later `initialize` calls
  starts GDI+ and calls `RegisterClass` again.
- A failed `RegisterClass` is not cached: `initialize` returns nothing and leaves
  `initialized` false (basewindow.hpp:110-112), so a later call retries.

The getters return fields. Position, size and id are `const` fields, so neither
`Create` nor anything else changes them; the constructors state their values
through the getters, and `Create` states the new handle through `GetWindowHandle`.

## Model

| member | source | states |
|---|---|---|
| `GuiObjects.GUIObject.Top` | lib/mingl/guiobject.cpp:4-7 | the top-level constructor stores class name, title, geometry, module handle and payload; no handle yet |
| `GuiObjects.GUIObject.Child` | lib/mingl/guiobject.cpp:9-13 | the child constructor stores its arguments; the style gains `WS_CHILD` iff the parent is non-null, else stays as it was |
| `GuiObjects.GUIObject.CreateArguments` | lib/mingl/guiobject.cpp:23-25 | CreateWindow gets the parent's handle iff there is a parent (else null), and `id` as menu handle (null when `id` is 0), plus the stored name, style, geometry, module handle and payload |
| `GuiObjects.GUIObject.IsCreated` | lib/mingl/guiobject.cpp:53-55 | created iff the window handle is non-null |
| `GuiObjects.GUIObject.GetWindowHandle` | lib/mingl/guiobject.cpp:49-51 | returns the stored handle: null after construction, the OS result after a `Create` on an object not yet created (a null result leaves it uncreated, so the next `Create` calls CreateWindow again and stores its result); unchanged by any later `Create` once one has returned true |
| `GuiObjects.GUIObject.GetX` | lib/mingl/guiobject.cpp:29-31 | returns the x position the constructor stored; it is a `const` field, so no call changes it |
| `GuiObjects.GUIObject.GetY` | lib/mingl/guiobject.cpp:33-35 | returns the y position the constructor stored; `const` |
| `GuiObjects.GUIObject.GetWidth` | lib/mingl/guiobject.cpp:37-39 | returns the width the constructor stored; `const` |
| `GuiObjects.GUIObject.GetHeight` | lib/mingl/guiobject.cpp:41-43 | returns the height the constructor stored; `const` |
| `GuiObjects.GUIObject.GetId` | lib/mingl/guiobject.cpp:45-47 | returns the control id: 0 for a top-level object, the given id for a child; `const` |
| `GuiObjects.GUIObject.Create` | lib/mingl/guiobject.cpp:15-27 | on a created object: returns false, no CreateWindow call, handle unchanged; otherwise one CreateWindow call with `CreateArguments`, the handle becomes the OS result, and the result is true iff that handle is non-null |
| `WindowClasses.Configure` | lib/mingl/basewindow.hpp:169-201 | a setter leaves the whole state unchanged once registered; before that it writes exactly its one descriptor field |
| `WindowClasses.DefaultsInOrder` | lib/mingl/basewindow.hpp:115-126 | `setDefaultWindowAttributes` is its seven setter calls in source order |
| `WindowClasses.ConfigureAllKeeps` | lib/mingl/basewindow.hpp:115-126 | a run of setter calls never changes the latch, the OS trace or the module handle |
| `WindowClasses.InitializeStep` | lib/mingl/basewindow.hpp:96-113 | `initialize` on a registered class returns at once with nothing changed; otherwise the latch equals RegisterClass's answer, the module handle is recorded, and the trace gains GDI+ startup then RegisterClass of the final descriptor |
| `WindowClasses.InitializeRegisters` | lib/mingl/basewindow.hpp:96-113 | an `initialize` on an unregistered class starts GDI+, then registers exactly: class name, module handle, window procedure, application icon and cursor, background `COLOR_WINDOW + 1`, null menu, style 0, both extra-byte counts 0; the module handle is recorded; the latch is set iff RegisterClass accepted |
| `WindowClasses.RegisteredIsFrozen` | lib/mingl/basewindow.hpp:97 | once registered, any run of setters and `initialize` calls changes nothing: no GDI+ start, no registration, same descriptor |
| `WindowClasses.SettersKeepLatch` | lib/mingl/basewindow.hpp:169-201 | setter calls alone never register and never set the latch |
| `WindowClasses.RunAppend` | lib/mingl/basewindow.hpp:96-201 | running two sequences of calls one after the other is running their concatenation |
| `WindowClasses.ConfigureBeforeAndAfterRegistration` | lib/mingl/basewindow.hpp:96-201 | for any setter calls before a successful `initialize` and any calls after it, the class is registered once, with a descriptor that does not depend on the setter calls, and nothing afterwards changes it |
| `WindowClasses.RejectedRegistrationRetries` | lib/mingl/basewindow.hpp:108-112 | a rejected registration leaves the latch false; the next `initialize` starts GDI+ and calls RegisterClass again with the same descriptor |
| `Dispatch.WndProcSpec` | lib/mingl/basewindow.hpp:60-78 | WM_DESTROY: quit posted, result 0, nothing forwarded or defaulted; WM_NCCREATE: the payload instance is bound to the handle and its result returned; other kinds: exactly one of `handleMessage` (handle bound) and `DefWindowProc` (unbound) runs, and its result is returned |
| `Dispatch.StopsTail` | lib/mingl/basewindow.hpp:136 | a loop input whose first result is positive still ends after that first message |
| `Dispatch.Pump` | lib/mingl/basewindow.hpp:136-139 | the loop dispatches exactly the messages before the first GetMessage result <= 0 and leaves the handle bindings unchanged |
| `Dispatch.PumpDone` | lib/mingl/basewindow.hpp:136 | a non-positive first GetMessage result ends the loop with nothing dispatched |
| `Dispatch.PumpStep` | lib/mingl/basewindow.hpp:136-139 | a positive first result means one dispatch of that (never WM_NCCREATE) message through the window procedure, followed by the loop on the rest |
| `Dispatch.MoveThenDestroy` | lib/mingl/basewindow.hpp:71-76 | for a bound handle, a mouse move then WM_DESTROY then WM_QUIT: two messages dispatched, the move forwarded to the bound window, quit posted, nothing else changes |
| `Dispatch.PumpPostsQuit` | lib/mingl/basewindow.hpp:71-74 | after the loop, quit is posted iff it already was or a WM_DESTROY was dispatched |
| `Dispatch.PumpNeverForwardsDestroy` | lib/mingl/basewindow.hpp:71-76 | no WM_DESTROY the loop dispatches ever reaches `handleMessage` |
| `Dispatch.DispatchLogs` | lib/mingl/basewindow.hpp:69-77 | one dispatch of a fetched message keeps the bindings and appends to each log exactly that message's `Fwd` and `Dflt` entries |
| `Dispatch.PumpForwardLog` | lib/mingl/basewindow.hpp:136-139 | through the `handleMessage` call of basewindow.hpp:76, the loop's `handleMessage` log grows by exactly `Fwd` of the dispatched messages, in fetch order |
| `Dispatch.PumpDefaultLog` | lib/mingl/basewindow.hpp:136-139 | through the `DefWindowProc` call of basewindow.hpp:77, the loop's `DefWindowProc` log grows by exactly `Dflt` of the dispatched messages, in fetch order |
| `Dispatch.PumpRoutesEachMessageOnce` | lib/mingl/basewindow.hpp:71-77 | the loop's `handleMessage` log grows by exactly `Fwd` of the dispatched messages (each non-WM_DESTROY message of a bound handle, paired with its instance, in fetch order) and its `DefWindowProc` log by exactly `Dflt` (each non-WM_DESTROY message of an unbound handle); with the WM_DESTROYs, every dispatched message is counted once |
| `BaseWindows.WndProc` | lib/mingl/basewindow.hpp:60-78 | the window procedure follows `WndProcSpec`; on WM_NCCREATE it also sets the payload window's handle and changes none of its other fields |
| `BaseWindows.BaseWindow.constructor` | lib/mingl/basewindow.hpp:85-94 | class name "CustomWindowClass", the given or default (CW_USEDEFAULT) geometry, the window itself as payload, style gains `WS_OVERLAPPEDWINDOW`, not registered, zeroed descriptor |
| `BaseWindows.MessageLoop` | lib/mingl/basewindow.hpp:136-139 | the loop leaves the OS state and iteration count that `Pump` describes |
| `BaseWindows.BaseWindow.Initialize` | lib/mingl/basewindow.hpp:96-113 | follows `Step` for an `initialize` call; on an unregistered window the descriptor afterwards is `RegisteredClass`; no other field of the window changes |
| `BaseWindows.BaseWindow.SetDefaultWindowAttributes` | lib/mingl/basewindow.hpp:115-126 | the state after the call is that of the seven default setter calls |
| `BaseWindows.BaseWindow.Show` | lib/mingl/basewindow.hpp:133-144 | not created: returns false, no loop iteration, nothing changes; created: the OS state is that of `Pump`, GDI+ is shut down exactly once, true is returned; latch and descriptor unchanged |
| `BaseWindows.BaseWindow.SetTitle` | lib/mingl/basewindow.hpp:165-167 | the title is set unguarded (`GetTitle` returns it afterwards, registered or not); no other field changes |
| `BaseWindows.BaseWindow.GetWindowClass` | lib/mingl/basewindow.hpp:155-157 | returns the stored descriptor itself; `Initialize` states it is `RegisteredClass` after a running `initialize`, and the setters that it changes only before registration |
| `BaseWindows.BaseWindow.GetTitle` | lib/mingl/basewindow.hpp:159-161 | returns the GUIObject's window name, the one the constructor and `SetTitle` store |
| `BaseWindows.BaseWindow.SetIcon` | lib/mingl/basewindow.hpp:169-171 | icon loaded into the descriptor only while not registered |
| `BaseWindows.BaseWindow.SetCursor` | lib/mingl/basewindow.hpp:179-181 | cursor loaded into the descriptor only while not registered |
| `BaseWindows.BaseWindow.SetMenuName` | lib/mingl/basewindow.hpp:183-185 | menu name written only while not registered |
| `BaseWindows.BaseWindow.SetBackground` | lib/mingl/basewindow.hpp:187-189 | background brush written only while not registered |
| `BaseWindows.BaseWindow.SetStyle` | lib/mingl/basewindow.hpp:191-193 | class style written only while not registered |
| `BaseWindows.BaseWindow.SetWindowExtraBytes` | lib/mingl/basewindow.hpp:195-197 | per-window extra bytes written only while not registered |
| `BaseWindows.BaseWindow.SetClassExtraBytes` | lib/mingl/basewindow.hpp:199-201 | per-class extra bytes written only while not registered |
| `BaseWindows.CreateShowDestroy` | lib/mingl/basewindow.hpp:19-26 | declare, initialize, create and show an 800x600 window titled "W": registration, creation and show succeed, quit is posted, `handleMessage` receives exactly WM_NCCREATE and the mouse move (so never the WM_DESTROY), and `DefWindowProc` receives nothing |

## Left out

- The Win32 and GDI+ calls themselves (class registration, handle allocation, icon and
  cursor loading, message delivery, GDI+ tokens): they are parameters or recorded calls.
  The GDI+ token value is not modelled, only the startup and shutdown calls.
- `GUIObject.Create` does not re-enter the window procedure. In the OS, CreateWindow
  delivers WM_NCCREATE, which sets the handle, before it returns. The model's caller
  delivers it separately (`CreateShowDestroy` does so after `Create`).
- `BaseWindow.Show` requires that the input ends: some GetMessage result is <= 0.
  The real loop blocks until that happens, and an endless input has no terminating model.
- `BaseWindow.Show` requires that no fetched message is WM_NCCREATE. That message is sent
  by CreateWindow, never posted, and its `lParam` would not hold a creation payload.
- `WndProc` requires a payload window on WM_NCCREATE: the source dereferences it.
- `Dispatch.Pump` takes every fetched message to go through this class's `wndProc`.
  `DispatchMessage` (basewindow.hpp:138) calls no window procedure for a thread message
  (null `hwnd`), and for a window of another class (a child control of a system class)
  it calls that class's procedure. The model logs both as `DefWindowProc` calls, so
  `PumpDefaultLog` and `Dflt` describe messages addressed to windows of this class only.
- `Dispatch.Pump` takes `handleMessage` and `DefWindowProc` to be pure functions. Their
  own effects are not modelled: a handler that calls PostQuitMessage or DestroyWindow,
  or DefWindowProc on WM_CLOSE calling DestroyWindow, which sends WM_DESTROY back into
  the window procedure. The "only if" half of `PumpPostsQuit` rests on this.
- `Dispatch.Pump`'s input stands for every window-procedure call made while the loop
  runs, whether the OS sent the message or the loop fetched a posted one. So a
  WM_DESTROY, which DestroyWindow sends, is a valid input. WM_NCCREATE is excluded
  (`Posted`) because it is sent only from inside CreateWindow, before `show`.
- Icon and cursor names: `setIcon` and `setCursor` take an `LPCSTR` that may be a
  resource name string or a MAKEINTRESOURCE ordinal (basewindow.hpp:169,179). The model
  takes the ordinal form (`ResourceId`) only; the named form would go to the same
  abstract `LoadIcon`/`LoadCursor`.
- TranslateMessage: the characters it posts are taken to be part of the input sequence.
- The handler registry and `handleMessage` of the derived `Window` type: `window.hpp`
  is not part of this model. `handleMessage` is an arbitrary function of window and message.
- An override of the virtual `setDefaultWindowAttributes`: only the base version is modelled.
- The `USE_WNDCLASSEX` variant (`hIconSm`, `cbSize`, `CreateWindowEx` with an extended
  style) and the `NO_GDIPLUS` variant: only the default `WNDCLASS` + GDI+ build is modelled.
- Initial member values from `guiobject.hpp`, which is not part of this model: taken as
  null handle, style 0, id 0, no parent, null module handle and payload.
- Integer widths: coordinates, sizes, ids, extra-byte counts and results are unbounded
  integers. No operation of the core does arithmetic on them.
- One `WindowManager` stands for the OS state of all windows. The C++ template gives
  each derived window type its own static `wndProc`; all of them route the same way.
- `Geometry/Line.cpp` (floating point, not used by the core) and the demo program
  `test/test_mouse_interaction.cpp` (needs a live message pump).
