/** The application window's input state (Window.h, Window.cpp): cursor
    capture, the first-mouse-move guard, and the stored framebuffer size.
    GLFW's cursor input mode is the field `cursorMode`; the GLFW calls that
    read and set it become reads and writes of that field. */
module Windows {
  import opened Glm

  /** GLFW_CURSOR_NORMAL, GLFW_CURSOR_HIDDEN, GLFW_CURSOR_DISABLED. */
  datatype CursorMode = Normal | Hidden | Disabled

  const GLFW_MOUSE_BUTTON_LEFT: int := 0
  const GLFW_RELEASE: int := 0
  const GLFW_PRESS: int := 1

  function Minus(a: Vec2, b: Vec2): Vec2 { Vec2(a.x - b.x, a.y - b.y) }
  function Plus(a: Vec2, b: Vec2): Vec2 { Vec2(a.x + b.x, a.y + b.y) }

  /** One call of Window::CalculateMouseOffset with the cursor at `pos`: the
      offset, and the remembered position afterwards. An armed first move
      measures from the cursor itself, so it reports no movement. */
  function MouseStep(firstMove: bool, prev: Vec2, pos: Vec2): (r: (Vec2, Vec2))
    ensures r.1 == pos
    ensures firstMove ==> r.0 == Vec2(0.0, 0.0)
    ensures !firstMove ==> Plus(prev, r.0) == pos
  {
    var from := if firstMove then pos else prev;
    (Minus(pos, from), pos)
  }

  /** The offsets reported for a series of cursor positions. */
  function Offsets(firstMove: bool, prev: Vec2, positions: seq<Vec2>): (r: seq<Vec2>)
    ensures |r| == |positions|
    decreases |positions|
  {
    if |positions| == 0 then []
    else
      var step := MouseStep(firstMove, prev, positions[0]);
      [step.0] + Offsets(false, step.1, positions[1..])
  }

  function Total(offsets: seq<Vec2>): Vec2
    decreases |offsets|
  {
    if |offsets| == 0 then Vec2(0.0, 0.0) else Plus(offsets[0], Total(offsets[1..]))
  }

  /** After the guard is armed the camera turns by exactly the distance the
      cursor travelled from its first reported position: no jump from
      wherever the cursor was before. */
  lemma {:induction false} OffsetsTelescope(prev: Vec2, positions: seq<Vec2>)
    requires |positions| > 0
    ensures Offsets(true, prev, positions)[0] == Vec2(0.0, 0.0)
    ensures Total(Offsets(true, prev, positions)) == Minus(positions[|positions| - 1], positions[0])
  {
    TrackedTotal(positions[0], positions[1..]);
    assert positions == [positions[0]] + positions[1..];
  }

  lemma {:induction false} TrackedTotal(prev: Vec2, positions: seq<Vec2>)
    ensures Total(Offsets(false, prev, positions)) ==
      if |positions| == 0 then Vec2(0.0, 0.0) else Minus(positions[|positions| - 1], prev)
    decreases |positions|
  {
    if |positions| > 0 {
      TrackedTotal(positions[0], positions[1..]);
    }
  }

  class Window {
    var width: int
    var height: int
    var cursorInWindow: bool
    var imguiHighlighted: bool
    var firstMouseMove: bool
    var prevMousePosition: Vec2
    /** The cursor input mode GLFW keeps for this window. */
    var cursorMode: CursorMode

    /** Window::Window(title, width, height); GLFW starts windows in normal cursor mode. */
    constructor (width: int, height: int)
      ensures this.width == width && this.height == height
      ensures firstMouseMove && !cursorInWindow && !imguiHighlighted
      ensures prevMousePosition == Vec2(0.0, 0.0) && cursorMode == Normal
    {
      this.width, this.height := width, height;
      firstMouseMove := true;
      cursorInWindow := false;
      imguiHighlighted := false;
      prevMousePosition := Vec2(0.0, 0.0);
      cursorMode := Normal;
    }

    /** Window::IsUserFocused: the application holds the cursor. */
    predicate IsUserFocused()
      reads this
    {
      cursorMode == Disabled
    }

    /** Window::CalculateMouseOffset (float rounding is not modelled). */
    method CalculateMouseOffset(xpos: real, ypos: real) returns (x: real, y: real)
      modifies this
      ensures Vec2(x, y) == MouseStep(old(firstMouseMove), old(prevMousePosition), Vec2(xpos, ypos)).0
      ensures prevMousePosition == Vec2(xpos, ypos) && !firstMouseMove
      ensures width == old(width) && height == old(height) && cursorMode == old(cursorMode)
      ensures cursorInWindow == old(cursorInWindow) && imguiHighlighted == old(imguiHighlighted)
    {
      if firstMouseMove {
        prevMousePosition := Vec2(xpos, ypos);
        firstMouseMove := false;
      }
      var offsetX := xpos - prevMousePosition.x;
      var offsetY := ypos - prevMousePosition.y;
      prevMousePosition := Vec2(xpos, ypos);
      x, y := offsetX, offsetY;
    }

    /** Window::OnCursorEntered: entering sets the flag only when it was
        clear; every other event clears it. */
    method OnCursorEntered(entered: int)
      modifies this
      ensures cursorInWindow == (!old(cursorInWindow) && entered != 0)
      ensures width == old(width) && height == old(height) && cursorMode == old(cursorMode)
      ensures firstMouseMove == old(firstMouseMove) && prevMousePosition == old(prevMousePosition)
      ensures imguiHighlighted == old(imguiHighlighted)
    {
      if !cursorInWindow && entered != 0 {
        cursorInWindow := true;
      } else {
        cursorInWindow := false;
      }
    }

    /** Window::OnWindowResized, as far as the window goes; the engine's part
        is GraphicsEngine.OnWindowResized. */
    method OnWindowResized(width: int, height: int)
      modifies this
      ensures this.width == width && this.height == height
      ensures cursorInWindow == old(cursorInWindow) && cursorMode == old(cursorMode)
      ensures firstMouseMove == old(firstMouseMove) && prevMousePosition == old(prevMousePosition)
      ensures imguiHighlighted == old(imguiHighlighted)
    {
      this.width := width;
      this.height := height;
    }

    /** Window::MouseButtonCallback: a left press captures the cursor only when
        it is in the window, not over an ImGui window, and not captured already. */
    method MouseButtonCallback(button: int, action: int, mods: int)
      modifies this
      ensures cursorMode == if button == GLFW_MOUSE_BUTTON_LEFT && action == GLFW_PRESS &&
        !imguiHighlighted && cursorInWindow && old(cursorMode) == Normal then Disabled else old(cursorMode)
      ensures width == old(width) && height == old(height) && cursorInWindow == old(cursorInWindow)
      ensures firstMouseMove == old(firstMouseMove) && prevMousePosition == old(prevMousePosition)
      ensures imguiHighlighted == old(imguiHighlighted)
    {
      if button == GLFW_MOUSE_BUTTON_LEFT && action == GLFW_PRESS {
        var mode := cursorMode;
        if !imguiHighlighted {
          if cursorInWindow && mode == Normal {
            cursorMode := Disabled;
          }
        }
      }
    }

    /** Window::OnUserRequestedCursor: releasing a held cursor shows it again
        and re-arms the first-move guard; with the cursor already free nothing changes. */
    method OnUserRequestedCursor()
      modifies this
      ensures old(cursorMode) != Normal ==> firstMouseMove && cursorMode == Normal
      ensures old(cursorMode) == Normal ==> firstMouseMove == old(firstMouseMove) && cursorMode == Normal
      ensures width == old(width) && height == old(height) && cursorInWindow == old(cursorInWindow)
      ensures prevMousePosition == old(prevMousePosition) && imguiHighlighted == old(imguiHighlighted)
    {
      var mode := cursorMode;
      if mode != Normal {
        firstMouseMove := true;
        cursorMode := Normal;
      }
    }

    /** Window::ImGuiHighlighted. */
    method ImGuiHighlighted(highlighted: bool)
      modifies this
      ensures imguiHighlighted == highlighted
      ensures width == old(width) && height == old(height) && cursorInWindow == old(cursorInWindow)
      ensures firstMouseMove == old(firstMouseMove) && prevMousePosition == old(prevMousePosition)
      ensures cursorMode == old(cursorMode)
    {
      imguiHighlighted := highlighted;
    }
  }
}
