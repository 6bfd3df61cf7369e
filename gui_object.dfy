/**
 * GUIObject: a native window handle together with the parameters it is
 * created from. The handle goes from null to non-null at most once.
 */
module GuiObjects {
  import opened Win

  /**
   * Initial member values declared in guiobject.hpp, which is not part of
   * this model: no style bits, no handle.
   */
  const DefaultStyle: bv32 := 0

  /** The arguments of one CreateWindow call. A menu handle of 0 is null. */
  datatype CreateArgs = CreateArgs(
    className: string,
    windowName: string,
    style: bv32,
    x: int, y: int, width: int, height: int,
    parentHandle: HWND,
    menu: int,
    hinstance: HINSTANCE,
    param: object?)

  class GUIObject {
    const parent: GUIObject?
    const className: string
    const id: int
    var name: string
    const x: int
    const y: int
    const width: int
    const height: int
    var hinstance: HINSTANCE
    var additionalData: object?
    var style: bv32
    var hwnd: HWND
    /** Every CreateWindow call this object has made. */
    ghost var createCalls: seq<CreateArgs>

    /** The top-level constructor. */
    constructor Top(className: string, name: string, x: int, y: int, width: int, height: int,
                    hinstance: HINSTANCE, additionalData: object?)
      ensures this.className == className && this.name == name
      ensures this.x == x && this.y == y && this.width == width && this.height == height
      ensures this.hinstance == hinstance && this.additionalData == additionalData
      ensures parent == null && id == 0 && style == DefaultStyle
      ensures GetX() == x && GetY() == y && GetWidth() == width && GetHeight() == height
      ensures GetId() == 0 && GetWindowHandle() == NULL
      ensures hwnd == NULL && !IsCreated() && createCalls == []
    {
      this.parent := null;
      this.className := className;
      this.id := 0;
      this.name := name;
      this.x, this.y, this.width, this.height := x, y, width, height;
      this.hinstance := hinstance;
      this.additionalData := additionalData;
      this.style := DefaultStyle;
      this.hwnd := NULL;
      this.createCalls := [];
    }

    /** The child constructor: a child of a non-null parent gets the WS_CHILD style bit. */
    constructor Child(parent: GUIObject?, className: string, id: int, name: string,
                      x: int, y: int, width: int, height: int)
      ensures this.parent == parent && this.className == className && this.id == id
      ensures this.name == name
      ensures this.x == x && this.y == y && this.width == width && this.height == height
      ensures hinstance == NULL && additionalData == null
      ensures style == if parent != null then DefaultStyle | WS_CHILD else DefaultStyle
      ensures GetX() == x && GetY() == y && GetWidth() == width && GetHeight() == height
      ensures GetId() == id && GetWindowHandle() == NULL
      ensures hwnd == NULL && !IsCreated() && createCalls == []
    {
      this.parent := parent;
      this.className := className;
      this.id := id;
      this.name := name;
      this.x, this.y, this.width, this.height := x, y, width, height;
      this.hinstance := NULL;
      this.additionalData := null;
      this.style := DefaultStyle;
      this.hwnd := NULL;
      this.createCalls := [];
      new;
      if parent != null {
        style := style | WS_CHILD;
      }
    }

    /** Created means holding a non-null handle. */
    predicate IsCreated()
      reads this
      ensures IsCreated() <==> GetWindowHandle() != NULL
    {
      hwnd != NULL
    }

    function GetWindowHandle(): (h: HWND)
      reads this
      ensures h == hwnd
    {
      hwnd
    }

    function GetX(): (r: int)
      ensures r == x
    {
      x
    }

    function GetY(): (r: int)
      ensures r == y
    {
      y
    }

    function GetWidth(): (r: int)
      ensures r == width
    {
      width
    }

    function GetHeight(): (r: int)
      ensures r == height
    {
      height
    }

    function GetId(): (r: int)
      ensures r == id
    {
      id
    }

    /**
     * The arguments `create` hands to CreateWindow: the parent's handle only
     * when there is a parent, and the id as menu handle only when it is not 0.
     */
    function CreateArguments(): (a: CreateArgs)
      reads this, parent
      ensures a.parentHandle == if parent != null then parent.hwnd else NULL
      ensures a.menu == id
      ensures a.className == className && a.windowName == name && a.style == style
      ensures a.x == x && a.y == y && a.width == width && a.height == height
      ensures a.hinstance == hinstance && a.param == additionalData
    {
      CreateArgs(className, name, style, x, y, width, height,
                 if parent != null then parent.GetWindowHandle() else NULL,
                 if id != 0 then id else NULL,
                 hinstance, additionalData)
    }

    /**
     * Creates the native window at most once. `osResult` is the handle
     * CreateWindow returns for the arguments recorded in `createCalls`.
     */
    method Create(osResult: HWND) returns (created: bool)
      modifies this
      ensures old(IsCreated()) ==> !created && hwnd == old(hwnd) && createCalls == old(createCalls)
      ensures !old(IsCreated()) ==>
                hwnd == osResult && created == (osResult != NULL) &&
                createCalls == old(createCalls) + [old(CreateArguments())]
      ensures created <==> !old(IsCreated()) && IsCreated()
      ensures GetWindowHandle() == if old(IsCreated()) then old(GetWindowHandle()) else osResult
      ensures name == old(name) && hinstance == old(hinstance)
      ensures additionalData == old(additionalData) && style == old(style)
    {
      if IsCreated() {
        return false;
      }
      createCalls := createCalls + [CreateArguments()];
      hwnd := osResult;
      created := IsCreated();
    }
  }
}
