/**
 * The slice of the native windowing API that the window core touches:
 * handle types, the constants it uses, the message record, the class
 * descriptor (WNDCLASS) and the OS services it consults, which are left
 * abstract (values and total functions supplied by the caller).
 */
module Win {

  datatype Option<+T> = None | Some(value: T)

  /** Opaque OS handles; 0 plays the part of the null handle. */
  type HWND = nat
  type HINSTANCE = nat
  type HICON = nat
  type HCURSOR = nat
  type HBRUSH = nat
  /** A resource id as produced by MAKEINTRESOURCE. */
  type ResourceId = nat
  /** Result of a window procedure. */
  type LRESULT = int

  const NULL: nat := 0

  /** Message kinds. */
  const WM_DESTROY: nat := 0x0002
  const WM_NCCREATE: nat := 0x0081
  const WM_QUIT: nat := 0x0012
  const WM_MOUSEMOVE: nat := 0x0200

  /** Window styles. */
  const WS_CHILD: bv32 := 0x4000_0000
  const WS_OVERLAPPEDWINDOW: bv32 := 0x00CF_0000

  /** `(int) 0x80000000`: let the OS choose the position or size. */
  const CW_USEDEFAULT: int := -0x8000_0000

  /** System resource ids and colours. */
  const IDI_APPLICATION: ResourceId := 32512
  const COLOR_WINDOW: nat := 5

  /** A window message: its kind and the two word-sized parameters. */
  datatype Message = Message(kind: nat, wParam: int, lParam: int)

  /** The window procedure a class descriptor points at. */
  datatype ProcRef = NoProc | BaseWindowProc

  /** The class descriptor handed to RegisterClass. Pointers that may be null are options. */
  datatype WndClass = WndClass(
    style: bv32,
    lpfnWndProc: ProcRef,
    cbClsExtra: int,
    cbWndExtra: int,
    hInstance: HINSTANCE,
    hIcon: HICON,
    hCursor: HCURSOR,
    hbrBackground: HBRUSH,
    lpszMenuName: Option<string>,
    lpszClassName: Option<string>)

  /** The value-initialised descriptor `WNDCLASS wc{}`: every field zero or null. */
  const ZeroClass := WndClass(0, NoProc, 0, 0, NULL, NULL, NULL, NULL, None, None)

  /**
   * What the OS answers without side effects the core cares about:
   * GetModuleHandle(nullptr), LoadIcon and LoadCursor.
   */
  datatype Env = Env(
    moduleHandle: HINSTANCE,
    loadIcon: (HINSTANCE, ResourceId) -> HICON,
    loadCursor: (HINSTANCE, ResourceId) -> HCURSOR)

  /** The OS calls the class lifecycle makes, in the order it makes them. */
  datatype OsCall = GdiplusStartup | RegisterClass(wc: WndClass) | GdiplusShutdown
}
