/**
 * The tray icon's conversation with the shell, as pure functions over an
 * abstract icon state. The icon's calls to Shell_NotifyIcon,
 * Shell_NotifyIconGetRect, SetForegroundWindow and DefWindowProc are appended
 * to a log; the `SystemTrayIcon` class in tray_icon.dfy is proved against
 * these functions.
 */
module NotifyIconProtocol {

  import opened Wrappers
  import opened ManualDefinitions

  /** A GUID, as the 128-bit number its text spells in hexadecimal. */
  newtype Guid = x: int | 0 <= x < 0x1_0000_0000_0000_0000_0000_0000_0000_0000

  /** A window handle; 0 is the default (null) handle. */
  type HWND = int

  /** An icon image, identified by its handle (compared by reference in the source). */
  type IconHandle = nat

  // Window messages
  const WM_DESTROY: nat := 0x0002
  const WM_NCDESTROY: nat := 0x0082
  const WM_MOUSEMOVE: nat := 0x0200
  const WM_LBUTTONUP: nat := 0x0202
  const WM_RBUTTONUP: nat := 0x0205
  /** The private callback message the shell posts for this icon. */
  const WM_FILES_UNIQUE_MESSAGE: nat := 2048
  /** NOTIFYICON_VERSION_4 */
  const NOTIFYICON_VERSION_4: nat := 4

  datatype NotifyIconMessage = NIM_ADD | NIM_MODIFY | NIM_DELETE | NIM_SETVERSION

  /** The fields of NOTIFYICONDATAW that the icon fills in. */
  datatype NotifyIconData = NotifyIconData(
    hWnd: HWND,
    guidItem: Guid,
    uCallbackMessage: nat,
    hIcon: IconHandle,
    szTip: string,
    uVersion: nat)

  /** A logged native call: Shell_NotifyIcon, Shell_NotifyIconGetRect, SetForegroundWindow or DefWindowProc. */
  datatype NativeCall =
    | ShellNotifyIcon(message: NotifyIconMessage, data: NotifyIconData)
    | ShellNotifyIconGetRect(hWnd: HWND, guidItem: Guid)
    | SetForegroundWindow(hWnd: HWND)
    | DefWindowProc(hWnd: HWND, uMsg: nat, wParam: int, lParam: nint)

  datatype Point = Point(x: int, y: int)

  datatype RECT = RECT(left: int, top: int, right: int, bottom: int)

  /** What `Shell_NotifyIconGetRect` answers: a status code and a rectangle. */
  datatype RectQuery = RectQuery(hr: HRESULT, rect: RECT)

  datatype MouseEventKind = MouseMoved | LeftClicked | RightClicked

  /** A raised event together with the screen point it carries. */
  datatype MouseEvent = MouseEvent(kind: MouseEventKind, point: Point)

  /** The icon's observable state: its properties, the created flag and the two logs. */
  datatype IconState = IconState(
    visible: bool,
    tooltip: string,
    icon: IconHandle,
    created: bool,
    calls: seq<NativeCall>,
    raised: seq<MouseEvent>)

  /** The state right after the fields are initialised and before the first shell call. */
  function Initial(icon: IconHandle, tooltip: string, visible: bool): IconState
  {
    IconState(visible, tooltip, icon, false, [], [])
  }

  // ---------------------------------------------------------------------------
  // Shell calls

  /** The data sent with ADD, MODIFY and the delete issued before ADD. */
  function IconData(s: IconState, id: Guid, hWnd: HWND): NotifyIconData
  {
    NotifyIconData(hWnd, id, WM_FILES_UNIQUE_MESSAGE, s.icon, s.tooltip, 0)
  }

  /** The data sent by `DeleteNotifyIcon`: handle and GUID only. */
  function DeleteData(id: Guid, hWnd: HWND): NotifyIconData
  {
    NotifyIconData(hWnd, id, 0, 0, "", 0)
  }

  /** The notify-icon verbs in a log, in order. */
  function Verbs(calls: seq<NativeCall>): (v: seq<NotifyIconMessage>)
    ensures |v| <= |calls|
  {
    if calls == [] then []
    else
      var rest := Verbs(calls[1..]);
      if calls[0].ShellNotifyIcon? then [calls[0].message] + rest else rest
  }

  lemma VerbsAppend(a: seq<NativeCall>, b: seq<NativeCall>)
    ensures Verbs(a + b) == Verbs(a) + Verbs(b)
  {
    if a != [] {
      assert (a + b)[0] == a[0];
      assert (a + b)[1..] == a[1..] + b;
      VerbsAppend(a[1..], b);
    } else {
      assert a + b == b;
    }
  }

  /**
   * Registers the icon with the shell or refreshes it. Nothing happens while
   * the icon is hidden; the first call deletes any stale icon with this GUID,
   * adds the icon and asks for protocol version 4; later calls modify it.
   */
  function CreateOrModify(s: IconState, id: Guid, hWnd: HWND): (t: IconState)
    ensures t.visible == s.visible && t.tooltip == s.tooltip && t.icon == s.icon && t.raised == s.raised
    ensures !s.visible ==> t == s
    ensures s.visible ==> t.created
    ensures |s.calls| <= |t.calls| && t.calls[..|s.calls|] == s.calls
  {
    if !s.visible then s
    else
      var data := IconData(s, id, hWnd);
      if !s.created then
        s.(created := true,
           calls := s.calls + [ShellNotifyIcon(NIM_DELETE, data),
                               ShellNotifyIcon(NIM_ADD, data),
                               ShellNotifyIcon(NIM_SETVERSION, data.(uVersion := NOTIFYICON_VERSION_4))])
      else
        s.(calls := s.calls + [ShellNotifyIcon(NIM_MODIFY, data)])
  }

  /** Removes the icon from the shell, but only if it was created. */
  function Delete(s: IconState, id: Guid, hWnd: HWND): (t: IconState)
    ensures t.visible == s.visible && t.tooltip == s.tooltip && t.icon == s.icon && t.raised == s.raised
    ensures !t.created
    ensures !s.created ==> t == s
    ensures s.created ==> |t.calls| == |s.calls| + 1 && t.calls[..|s.calls|] == s.calls
  {
    if s.created then
      s.(created := false, calls := s.calls + [ShellNotifyIcon(NIM_DELETE, DeleteData(id, hWnd))])
    else s
  }

  /** The private `IsVisible` setter: nothing for the same value; hide deletes, show creates. */
  function SetVisible(s: IconState, value: bool, id: Guid, hWnd: HWND): (t: IconState)
    ensures t.visible == value && t.tooltip == s.tooltip && t.icon == s.icon
  {
    if s.visible == value then s
    else if !value then Delete(s.(visible := false), id, hWnd)
    else CreateOrModify(s.(visible := true), id, hWnd)
  }

  /** The `Tooltip` setter: a new value is stored and pushed to the shell. */
  function SetTooltip(s: IconState, value: string, id: Guid, hWnd: HWND): (t: IconState)
    ensures t.tooltip == value && t.visible == s.visible && t.icon == s.icon
  {
    if s.tooltip == value then s else CreateOrModify(s.(tooltip := value), id, hWnd)
  }

  /** The `Icon` setter: a new image is stored and pushed to the shell. */
  function SetIcon(s: IconState, value: IconHandle, id: Guid, hWnd: HWND): (t: IconState)
    ensures t.icon == value && t.visible == s.visible && t.tooltip == s.tooltip
  {
    if s.icon == value then s else CreateOrModify(s.(icon := value), id, hWnd)
  }

  // ---------------------------------------------------------------------------
  // Message decoding

  /** C#'s `x / 2` on int: the quotient truncated toward zero. */
  function HalfTowardZero(x: int): (h: int)
    ensures x >= 0 ==> 0 <= h && h + h <= x <= h + h + 1
    ensures x < 0 ==> h <= 0 && h + h - 1 <= x <= h + h
  {
    if x >= 0 then x / 2 else -((-x) / 2)
  }

  /**
   * The centre of the icon's rectangle, `(right - width / 2, bottom - height / 2)`,
   * when the query succeeded; the empty point otherwise.
   */
  function GetCenterPointOfTrayIcon(q: RectQuery): (p: Point)
    ensures !SUCCEEDED(q.hr) ==> p == Point(0, 0)
    ensures SUCCEEDED(q.hr) ==>
              p.x == q.rect.right - HalfTowardZero(q.rect.right - q.rect.left) &&
              p.y == q.rect.bottom - HalfTowardZero(q.rect.bottom - q.rect.top)
  {
    if SUCCEEDED(q.hr) then
      Point(q.rect.right - HalfTowardZero(q.rect.right - q.rect.left),
            q.rect.bottom - HalfTowardZero(q.rect.bottom - q.rect.top))
    else Point(0, 0)
  }

  /** For a well-formed rectangle the centre point lies inside it, in its middle. */
  lemma CenterPointInsideRect(q: RectQuery)
    requires SUCCEEDED(q.hr)
    requires q.rect.left <= q.rect.right && q.rect.top <= q.rect.bottom
    ensures var p := GetCenterPointOfTrayIcon(q);
            && q.rect.left <= p.x <= q.rect.right
            && q.rect.top <= p.y <= q.rect.bottom
            && p.x - q.rect.left - (q.rect.right - p.x) in {0, 1}
            && p.y - q.rect.top - (q.rect.bottom - p.y) in {0, 1}
  {
  }

  predicate IsEmpty(p: Point)
  {
    p.x == 0 && p.y == 0
  }

  /** The mouse sub-events the icon reports, by the low word of the callback's lParam. */
  function EventKindOf(code: nat): Option<MouseEventKind>
  {
    if code == WM_MOUSEMOVE then Some(MouseMoved)
    else if code == WM_LBUTTONUP then Some(LeftClicked)
    else if code == WM_RBUTTONUP then Some(RightClicked)
    else None
  }

  /** A routed window message together with what the native calls it triggers answer. */
  datatype WindowMessage = WindowMessage(hWnd: HWND, uMsg: nat, wParam: int, lParam: nint)

  /** The answers of the native calls a message can trigger (foreign calls become inputs). */
  datatype NativeAnswers = NativeAnswers(rectQuery: RectQuery, defWindowProcResult: int)

  /**
   * `WindowProc`: the new state and the LRESULT. `ownHandle` is the icon
   * window's handle, used in notify-icon data; `restartId` is the registered
   * "TaskbarCreated" message.
   */
  function Dispatch(s: IconState, id: Guid, ownHandle: HWND, restartId: nat,
                    m: WindowMessage, answers: NativeAnswers): (r: (IconState, int))
    ensures r.0.visible == s.visible && r.0.tooltip == s.tooltip && r.0.icon == s.icon
    ensures r.1 == (if m.uMsg == WM_FILES_UNIQUE_MESSAGE || m.uMsg == WM_DESTROY then 0
                    else answers.defWindowProcResult)
    ensures |s.raised| <= |r.0.raised| <= |s.raised| + 1 && r.0.raised[..|s.raised|] == s.raised
  {
    if m.uMsg == WM_FILES_UNIQUE_MESSAGE then
      match EventKindOf(LOWORD(m.lParam) as nat)
      case None => (s, 0)
      case Some(kind) =>
        var point := GetCenterPointOfTrayIcon(answers.rectQuery);
        var t := s.(calls := s.calls + [SetForegroundWindow(m.hWnd), ShellNotifyIconGetRect(m.hWnd, id)]);
        if IsEmpty(point) then (t, 0)
        else (t.(raised := t.raised + [MouseEvent(kind, point)]), 0)
    else if m.uMsg == WM_DESTROY then
      (Delete(s, id, ownHandle), 0)
    else
      var t := if m.uMsg == restartId then CreateOrModify(Delete(s, id, ownHandle), id, ownHandle) else s;
      (t.(calls := t.calls + [DefWindowProc(m.hWnd, m.uMsg, m.wParam, m.lParam)]),
       answers.defWindowProcResult)
  }

  // ---------------------------------------------------------------------------
  // The shell's view: which calls are legal, and whether the icon is registered

  /** The GUID a native call is about, if any. */
  predicate KeyedBy(c: NativeCall, id: Guid)
  {
    match c
    case ShellNotifyIcon(_, data) => data.guidItem == id
    case ShellNotifyIconGetRect(_, guid) => guid == id
    case _ => true
  }

  /**
   * One step of the shell's bookkeeping for the icon `id`: `Some(registered)`
   * while every call so far was legal, `None` after an illegal one (ADD of a
   * registered icon, MODIFY or SETVERSION of an unregistered one). DELETE is
   * always accepted.
   */
  function ShellStep(state: Option<bool>, c: NativeCall, id: Guid): Option<bool>
  {
    match state
    case None => None
    case Some(registered) =>
      if c.ShellNotifyIcon? && c.data.guidItem == id then
        match c.message
        case NIM_ADD => if registered then None else Some(true)
        case NIM_DELETE => Some(false)
        case NIM_MODIFY => if registered then Some(true) else None
        case NIM_SETVERSION => if registered then Some(true) else None
      else state
  }

  function Replay(state: Option<bool>, calls: seq<NativeCall>, id: Guid): Option<bool>
    decreases |calls|
  {
    if calls == [] then state else Replay(ShellStep(state, calls[0], id), calls[1..], id)
  }

  lemma {:induction false} ReplayAppend(state: Option<bool>, a: seq<NativeCall>, b: seq<NativeCall>, id: Guid)
    ensures Replay(state, a + b, id) == Replay(Replay(state, a, id), b, id)
    decreases |a|
  {
    if a != [] {
      assert (a + b)[0] == a[0];
      assert (a + b)[1..] == a[1..] + b;
      ReplayAppend(ShellStep(state, a[0], id), a[1..], b, id);
    } else {
      assert a + b == b;
    }
  }

  /**
   * The icon's invariant: every call it made names its own GUID, the shell
   * accepted every notify-icon call in order, and the `created` flag agrees
   * with whether the shell has the icon registered.
   */
  ghost predicate Consistent(s: IconState, id: Guid)
  {
    && (forall i :: 0 <= i < |s.calls| ==> KeyedBy(s.calls[i], id))
    && Replay(Some(false), s.calls, id) == Some(s.created)
  }

  lemma InitialConsistent(icon: IconHandle, tooltip: string, visible: bool, id: Guid)
    ensures Consistent(Initial(icon, tooltip, visible), id)
  {
  }

  /** Appending calls that are keyed by `id` and legal from the current registration. */
  lemma AppendKeepsConsistent(s: IconState, extra: seq<NativeCall>, created: bool, id: Guid)
    requires Consistent(s, id)
    requires forall i :: 0 <= i < |extra| ==> KeyedBy(extra[i], id)
    requires Replay(Some(s.created), extra, id) == Some(created)
    ensures Consistent(s.(calls := s.calls + extra, created := created), id)
  {
    ReplayAppend(Some(false), s.calls, extra, id);
    var t := s.(calls := s.calls + extra, created := created);
    forall i | 0 <= i < |t.calls| ensures KeyedBy(t.calls[i], id) {
      if i >= |s.calls| {
        assert t.calls[i] == extra[i - |s.calls|];
      }
    }
  }

  lemma {:induction false} CreateOrModifyConsistent(s: IconState, id: Guid, hWnd: HWND)
    requires Consistent(s, id)
    ensures Consistent(CreateOrModify(s, id, hWnd), id)
  {
    if s.visible {
      var data := IconData(s, id, hWnd);
      if !s.created {
        var extra := [ShellNotifyIcon(NIM_DELETE, data),
                      ShellNotifyIcon(NIM_ADD, data),
                      ShellNotifyIcon(NIM_SETVERSION, data.(uVersion := NOTIFYICON_VERSION_4))];
        assert Replay(Some(false), extra, id) == Replay(Some(false), extra[1..], id);
        assert Replay(Some(false), extra[1..], id) == Replay(Some(true), extra[2..], id);
        assert Replay(Some(true), extra[2..], id) == Replay(Some(true), [], id);
        AppendKeepsConsistent(s, extra, true, id);
      } else {
        var extra := [ShellNotifyIcon(NIM_MODIFY, data)];
        assert extra[1..] == [];
        AppendKeepsConsistent(s, extra, true, id);
      }
    }
  }

  lemma {:induction false} DeleteConsistent(s: IconState, id: Guid, hWnd: HWND)
    requires Consistent(s, id)
    ensures Consistent(Delete(s, id, hWnd), id)
  {
    if s.created {
      var extra := [ShellNotifyIcon(NIM_DELETE, DeleteData(id, hWnd))];
      assert extra[1..] == [];
      AppendKeepsConsistent(s, extra, false, id);
    }
  }

  lemma {:induction false} SetVisibleConsistent(s: IconState, value: bool, id: Guid, hWnd: HWND)
    requires Consistent(s, id)
    ensures Consistent(SetVisible(s, value, id, hWnd), id)
  {
    if s.visible != value {
      if !value { DeleteConsistent(s.(visible := false), id, hWnd); }
      else { CreateOrModifyConsistent(s.(visible := true), id, hWnd); }
    }
  }

  lemma {:induction false} SetTooltipConsistent(s: IconState, value: string, id: Guid, hWnd: HWND)
    requires Consistent(s, id)
    ensures Consistent(SetTooltip(s, value, id, hWnd), id)
  {
    if s.tooltip != value { CreateOrModifyConsistent(s.(tooltip := value), id, hWnd); }
  }

  lemma {:induction false} SetIconConsistent(s: IconState, value: IconHandle, id: Guid, hWnd: HWND)
    requires Consistent(s, id)
    ensures Consistent(SetIcon(s, value, id, hWnd), id)
  {
    if s.icon != value { CreateOrModifyConsistent(s.(icon := value), id, hWnd); }
  }

  lemma {:induction false} DispatchConsistent(s: IconState, id: Guid, ownHandle: HWND, restartId: nat,
                                              m: WindowMessage, answers: NativeAnswers)
    requires Consistent(s, id)
    ensures Consistent(Dispatch(s, id, ownHandle, restartId, m, answers).0, id)
  {
    if m.uMsg == WM_FILES_UNIQUE_MESSAGE {
      if EventKindOf(LOWORD(m.lParam) as nat).Some? {
        var extra := [SetForegroundWindow(m.hWnd), ShellNotifyIconGetRect(m.hWnd, id)];
        assert Replay(Some(s.created), extra, id) == Replay(Some(s.created), extra[1..], id);
        assert Replay(Some(s.created), extra[1..], id) == Replay(Some(s.created), [], id);
        AppendKeepsConsistent(s, extra, s.created, id);
      }
    } else if m.uMsg == WM_DESTROY {
      DeleteConsistent(s, id, ownHandle);
    } else {
      var t := s;
      if m.uMsg == restartId {
        DeleteConsistent(s, id, ownHandle);
        CreateOrModifyConsistent(Delete(s, id, ownHandle), id, ownHandle);
        t := CreateOrModify(Delete(s, id, ownHandle), id, ownHandle);
      }
      var extra := [DefWindowProc(m.hWnd, m.uMsg, m.wParam, m.lParam)];
      assert extra[1..] == [];
      AppendKeepsConsistent(t, extra, t.created, id);
    }
  }

  // ---------------------------------------------------------------------------
  // What each operation says to the shell

  /** The calls an operation appended to the log. */
  function Issued(before: IconState, after: IconState): seq<NativeCall>
    requires |before.calls| <= |after.calls|
  {
    after.calls[|before.calls|..]
  }

  /**
   * While the icon is visible, the first registration issues exactly DELETE,
   * ADD, SETVERSION (version 4) and marks the icon created; once created, a
   * refresh issues exactly one MODIFY. Every call carries the icon's GUID and
   * its current image and tooltip. While the icon is hidden nothing is issued.
   */
  lemma CreateOrModifyIssues(s: IconState, id: Guid, hWnd: HWND)
    ensures var t := CreateOrModify(s, id, hWnd);
            && (!s.visible ==> Issued(s, t) == [] && t.created == s.created)
            && (s.visible && !s.created ==>
                  && Verbs(Issued(s, t)) == [NIM_DELETE, NIM_ADD, NIM_SETVERSION]
                  && Issued(s, t)[2].data.uVersion == NOTIFYICON_VERSION_4)
            && (s.visible && s.created ==> Verbs(Issued(s, t)) == [NIM_MODIFY])
            && (forall c :: c in Issued(s, t) ==>
                  c.ShellNotifyIcon? && c.data.guidItem == id && c.data.hWnd == hWnd &&
                  c.data.szTip == s.tooltip && c.data.hIcon == s.icon)
  {
    var t := CreateOrModify(s, id, hWnd);
    if s.visible {
      var data := IconData(s, id, hWnd);
      if !s.created {
        var extra := [ShellNotifyIcon(NIM_DELETE, data), ShellNotifyIcon(NIM_ADD, data),
                      ShellNotifyIcon(NIM_SETVERSION, data.(uVersion := NOTIFYICON_VERSION_4))];
        assert Issued(s, t) == extra;
        assert Verbs(extra) == [NIM_DELETE] + Verbs(extra[1..]);
        assert Verbs(extra[1..]) == [NIM_ADD] + Verbs(extra[2..]);
        assert Verbs(extra[2..]) == [NIM_SETVERSION] + Verbs(extra[3..]);
      } else {
        var extra := [ShellNotifyIcon(NIM_MODIFY, data)];
        assert Issued(s, t) == extra;
        assert Verbs(extra) == [NIM_MODIFY] + Verbs(extra[1..]);
      }
    } else {
      assert Issued(s, t) == [];
    }
  }

  /**
   * Deleting issues one DELETE for the icon's GUID when it was created, and
   * nothing otherwise; a second delete never issues anything.
   */
  lemma DeleteIssues(s: IconState, id: Guid, hWnd: HWND)
    ensures var t := Delete(s, id, hWnd);
            && (s.created ==> Issued(s, t) == [ShellNotifyIcon(NIM_DELETE, DeleteData(id, hWnd))])
            && (!s.created ==> Issued(s, t) == [])
            && Delete(t, id, hWnd) == t
  {
    var t := Delete(s, id, hWnd);
    assert !s.created ==> Issued(s, t) == [];
  }

  /**
   * Setting visibility to its current value does nothing; hiding a shown icon
   * deletes it (if created) and showing a hidden one registers it. Setting
   * the same value twice is the same as setting it once.
   */
  lemma SetVisibleBehaviour(s: IconState, value: bool, id: Guid, hWnd: HWND)
    ensures var t := SetVisible(s, value, id, hWnd);
            && (s.visible == value ==> t == s)
            && (s.visible && !value ==> t == Delete(s.(visible := false), id, hWnd) && !t.created)
            && (!s.visible && value ==> t == CreateOrModify(s.(visible := true), id, hWnd) && t.created)
            && SetVisible(t, value, id, hWnd) == t
  {
  }

  /**
   * Hiding and showing a registered icon again deletes it, then re-adds it:
   * DELETE, DELETE, ADD, SETVERSION, ending created.
   */
  lemma HideThenShowReRegisters(s: IconState, id: Guid, hWnd: HWND)
    requires s.visible && s.created
    ensures var t := SetVisible(SetVisible(s, false, id, hWnd), true, id, hWnd);
            && t.visible && t.created
            && Verbs(Issued(s, t)) == [NIM_DELETE, NIM_DELETE, NIM_ADD, NIM_SETVERSION]
  {
    var h := SetVisible(s, false, id, hWnd);
    var t := SetVisible(h, true, id, hWnd);
    DeleteIssues(s.(visible := false), id, hWnd);
    CreateOrModifyIssues(h.(visible := true), id, hWnd);
    assert Issued(s, t) == Issued(s, h) + Issued(h, t);
    VerbsAppend(Issued(s, h), Issued(h, t));
    assert Verbs(Issued(s, h)) == [NIM_DELETE] + Verbs(Issued(s, h)[1..]);
    assert Issued(s, h)[1..] == [];
  }

  /**
   * Setting the tooltip or the image to its current value issues no shell
   * call; a new value on a registered, visible icon issues exactly one MODIFY
   * that carries it.
   */
  lemma SettersDebounce(s: IconState, tip: string, icon: IconHandle, id: Guid, hWnd: HWND)
    ensures SetTooltip(s, s.tooltip, id, hWnd) == s
    ensures SetIcon(s, s.icon, id, hWnd) == s
    ensures s.visible && s.created && tip != s.tooltip ==>
              var t := SetTooltip(s, tip, id, hWnd);
              Issued(s, t) == [ShellNotifyIcon(NIM_MODIFY, IconData(s, id, hWnd).(szTip := tip))]
    ensures s.visible && s.created && icon != s.icon ==>
              var t := SetIcon(s, icon, id, hWnd);
              Issued(s, t) == [ShellNotifyIcon(NIM_MODIFY, IconData(s, id, hWnd).(hIcon := icon))]
    ensures !s.visible ==> SetTooltip(s, tip, id, hWnd).calls == s.calls && SetIcon(s, icon, id, hWnd).calls == s.calls
  {
  }

  /**
   * On the callback message, an event is raised exactly when the low word is
   * one of mouse-move, left-button-up and right-button-up and the icon's centre
   * point is not empty; the event carries that kind and that point. The
   * foreground request and the rectangle query both precede it. Nothing else
   * about the icon changes.
   */
  lemma CallbackMessageRaises(s: IconState, id: Guid, ownHandle: HWND, restartId: nat,
                              m: WindowMessage, answers: NativeAnswers)
    requires m.uMsg == WM_FILES_UNIQUE_MESSAGE
    ensures var t := Dispatch(s, id, ownHandle, restartId, m, answers).0;
            var kind := EventKindOf(LOWORD(m.lParam) as nat);
            var point := GetCenterPointOfTrayIcon(answers.rectQuery);
            && t.created == s.created
            && (|t.raised| == |s.raised| + 1 <==> kind.Some? && !IsEmpty(point))
            && (|t.raised| == |s.raised| + 1 ==> t.raised[|s.raised|] == MouseEvent(kind.value, point))
            && (kind.Some? ==> Issued(s, t) == [SetForegroundWindow(m.hWnd), ShellNotifyIconGetRect(m.hWnd, id)])
            && (kind.None? ==> t == s)
  {
  }

  /** A rectangle query that failed never raises an event. */
  lemma FailedQueryRaisesNothing(s: IconState, id: Guid, ownHandle: HWND, restartId: nat,
                                 m: WindowMessage, answers: NativeAnswers)
    requires !SUCCEEDED(answers.rectQuery.hr)
    ensures Dispatch(s, id, ownHandle, restartId, m, answers).0.raised == s.raised
  {
  }

  /** WM_DESTROY only deletes the icon; no other call, no event, no forwarding. */
  lemma DestroyOnlyDeletes(s: IconState, id: Guid, ownHandle: HWND, restartId: nat,
                           m: WindowMessage, answers: NativeAnswers)
    requires m.uMsg == WM_DESTROY
    ensures Dispatch(s, id, ownHandle, restartId, m, answers) == (Delete(s, id, ownHandle), 0)
  {
  }

  /**
   * The "TaskbarCreated" broadcast re-registers a visible icon: it is deleted
   * (if it was created), then registered afresh with DELETE, ADD, SETVERSION,
   * and the message still goes to DefWindowProc, whose answer is returned.
   */
  lemma TaskbarRestartReRegisters(s: IconState, id: Guid, ownHandle: HWND, restartId: nat,
                                  m: WindowMessage, answers: NativeAnswers)
    requires m.uMsg == restartId && restartId != WM_FILES_UNIQUE_MESSAGE && restartId != WM_DESTROY
    requires s.visible
    ensures var r := Dispatch(s, id, ownHandle, restartId, m, answers);
            && r.0.created
            && r.1 == answers.defWindowProcResult
            && Verbs(Issued(s, r.0)) ==
                 (if s.created then [NIM_DELETE] else []) + [NIM_DELETE, NIM_ADD, NIM_SETVERSION]
            && r.0.calls[|r.0.calls| - 1] == DefWindowProc(m.hWnd, m.uMsg, m.wParam, m.lParam)
  {
    var d := Delete(s, id, ownHandle);
    var c := CreateOrModify(d, id, ownHandle);
    var t := Dispatch(s, id, ownHandle, restartId, m, answers).0;
    DeleteIssues(s, id, ownHandle);
    CreateOrModifyIssues(d, id, ownHandle);
    var last := [DefWindowProc(m.hWnd, m.uMsg, m.wParam, m.lParam)];
    assert Issued(s, t) == Issued(s, d) + Issued(d, c) + last;
    VerbsAppend(Issued(s, d) + Issued(d, c), last);
    VerbsAppend(Issued(s, d), Issued(d, c));
    assert Verbs(last) == [] by {
      assert Verbs(last) == Verbs(last[1..]);
      assert last[1..] == [];
    }
    if s.created {
      assert Verbs(Issued(s, d)) == [NIM_DELETE] + Verbs(Issued(s, d)[1..]);
      assert Issued(s, d)[1..] == [];
    }
  }

  /**
   * Any other message is handed to DefWindowProc unchanged and its answer
   * returned; it changes nothing else.
   */
  lemma OtherMessagesForwarded(s: IconState, id: Guid, ownHandle: HWND, restartId: nat,
                               m: WindowMessage, answers: NativeAnswers)
    requires m.uMsg != WM_FILES_UNIQUE_MESSAGE && m.uMsg != WM_DESTROY && m.uMsg != restartId
    ensures Dispatch(s, id, ownHandle, restartId, m, answers) ==
              (s.(calls := s.calls + [DefWindowProc(m.hWnd, m.uMsg, m.wParam, m.lParam)]), answers.defWindowProcResult)
  {
  }

  // ---------------------------------------------------------------------------
  // Messages the window manager sends while a native call runs

  /**
   * The answers passed with a message the window manager itself sends: the
   * result goes back to the window manager, and none of these messages makes
   * the icon query the shell.
   */
  const Unanswered: NativeAnswers := NativeAnswers(RectQuery(0, RECT(0, 0, 0, 0)), 0)

  /** What RegisterWindowMessage answers: 0 when it fails, otherwise a number from 0xC000 through 0xFFFF. */
  predicate RegisteredMessageId(id: nat)
  {
    id == 0 || 0xC000 <= id <= 0xFFFF
  }

  /** A message the window procedure only hands on to DefWindowProc. */
  predicate OnlyForwarded(m: WindowMessage, restartId: nat)
  {
    m.uMsg != WM_FILES_UNIQUE_MESSAGE && m.uMsg != WM_DESTROY && m.uMsg != restartId
  }

  /** The state after the window procedure handled `ms`, one after another. */
  function Delivered(s: IconState, id: Guid, ownHandle: HWND, restartId: nat, ms: seq<WindowMessage>): IconState
    decreases |ms|
  {
    if ms == [] then s
    else Dispatch(Delivered(s, id, ownHandle, restartId, ms[..|ms| - 1]), id, ownHandle, restartId,
                  ms[|ms| - 1], Unanswered).0
  }

  /** The DefWindowProc calls that hand `ms` on, in order. */
  function Forwards(ms: seq<WindowMessage>): seq<NativeCall>
  {
    seq(|ms|, i requires 0 <= i < |ms| => DefWindowProc(ms[i].hWnd, ms[i].uMsg, ms[i].wParam, ms[i].lParam))
  }

  /**
   * Messages that are only handed on leave the icon as it was, apart from one
   * DefWindowProc call each, in order: no shell call and no event.
   */
  lemma {:induction false} DeliveredForwards(s: IconState, id: Guid, ownHandle: HWND, restartId: nat,
                                             ms: seq<WindowMessage>)
    requires forall i :: 0 <= i < |ms| ==> OnlyForwarded(ms[i], restartId)
    ensures Delivered(s, id, ownHandle, restartId, ms) == s.(calls := s.calls + Forwards(ms))
    decreases |ms|
  {
    if ms == [] {
      assert s.calls + Forwards(ms) == s.calls;
    } else {
      var init := ms[..|ms| - 1];
      var last := ms[|ms| - 1];
      DeliveredForwards(s, id, ownHandle, restartId, init);
      OtherMessagesForwarded(Delivered(s, id, ownHandle, restartId, init), id, ownHandle, restartId, last, Unanswered);
      assert Forwards(ms) == Forwards(init) + [DefWindowProc(last.hWnd, last.uMsg, last.wParam, last.lParam)];
    }
  }

  /** What DestroyWindow sends to the window procedure before it returns: WM_DESTROY, then WM_NCDESTROY. */
  function DestroyMessages(hWnd: HWND): seq<WindowMessage>
  {
    [WindowMessage(hWnd, WM_DESTROY, 0, 0), WindowMessage(hWnd, WM_NCDESTROY, 0, 0)]
  }

  /**
   * Destroying the live window deletes the icon from the shell if it is
   * registered (WM_DESTROY), then hands WM_NCDESTROY to DefWindowProc; the
   * icon ends unregistered and nothing else changes.
   */
  lemma DestroyWindowDeletes(s: IconState, id: Guid, hWnd: HWND, restartId: nat)
    requires RegisteredMessageId(restartId)
    ensures var t := Delivered(s, id, hWnd, restartId, DestroyMessages(hWnd));
            var d := Delete(s, id, hWnd);
            && t == d.(calls := d.calls + [DefWindowProc(hWnd, WM_NCDESTROY, 0, 0)])
            && !t.created
  {
    var ms := DestroyMessages(hWnd);
    var d := Delete(s, id, hWnd);
    assert ms[..1][..0] == [];
    DestroyOnlyDeletes(s, id, hWnd, restartId, ms[0], Unanswered);
    assert Delivered(s, id, hWnd, restartId, ms[..1]) == d;
    assert ms[..1] == ms[..|ms| - 1];
    OtherMessagesForwarded(d, id, hWnd, restartId, ms[1], Unanswered);
  }

  // ---------------------------------------------------------------------------
  // The GUID's text, `Guid.ToString()`: 32 lower-case hex digits in 8-4-4-4-12 groups

  function Pow16(k: nat): (p: nat)
    ensures p > 0
  {
    if k == 0 then 1 else 16 * Pow16(k - 1)
  }

  lemma {:induction false} Pow16Add(a: nat, b: nat)
    ensures Pow16(a + b) == Pow16(a) * Pow16(b)
  {
    if a > 0 {
      Pow16Add(a - 1, b);
      assert Pow16(a + b) == 16 * Pow16(a - 1 + b);
    }
  }

  /** 16^32 is the number of GUIDs. */
  lemma Pow16Of32()
    ensures Pow16(32) == 0x1_0000_0000_0000_0000_0000_0000_0000_0000
  {
    assert Pow16(2) == 0x100;
    Pow16Add(2, 2);
    assert Pow16(4) == 0x1_0000;
    Pow16Add(4, 4);
    assert Pow16(8) == 0x1_0000_0000;
    Pow16Add(8, 8);
    assert Pow16(16) == 0x1_0000_0000_0000_0000;
    Pow16Add(16, 16);
  }

  function HexDigit(d: nat): char
    requires d < 16
  {
    "0123456789abcdef"[d]
  }

  /** The `k` lowest hex digits of `n`, most significant first. */
  function Hex(n: nat, k: nat): (h: string)
    ensures |h| == k
  {
    if k == 0 then [] else Hex(n / 16, k - 1) + [HexDigit(n % 16)]
  }

  /** Below 16^k, the k-digit text determines the number. */
  lemma {:induction false} HexInjective(n: nat, m: nat, k: nat)
    requires n < Pow16(k) && m < Pow16(k)
    requires Hex(n, k) == Hex(m, k)
    ensures n == m
  {
    if k > 0 {
      var hn, hm := Hex(n, k), Hex(m, k);
      assert hn[k - 1] == HexDigit(n % 16) && hm[k - 1] == HexDigit(m % 16);
      assert n % 16 == m % 16;
      assert hn[..k - 1] == Hex(n / 16, k - 1) && hm[..k - 1] == Hex(m / 16, k - 1);
      HexInjective(n / 16, m / 16, k - 1);
    }
  }

  function GuidText(g: Guid): (t: string)
    ensures |t| == 36
    ensures t[8] == '-' && t[13] == '-' && t[18] == '-' && t[23] == '-'
  {
    var h := Hex(g as nat, 32);
    h[..8] + "-" + h[8..12] + "-" + h[12..16] + "-" + h[16..20] + "-" + h[20..]
  }

  /** Dropping the four hyphens gives back the 32 digits. */
  function Digits(t: string): string
    requires |t| == 36
  {
    t[..8] + t[9..13] + t[14..18] + t[19..23] + t[24..]
  }

  lemma DigitsOfGuidText(g: Guid)
    ensures Digits(GuidText(g)) == Hex(g as nat, 32)
  {
    var h := Hex(g as nat, 32);
    var t := GuidText(g);
    assert t[..8] == h[..8];
    assert t[9..13] == h[8..12];
    assert t[14..18] == h[12..16];
    assert t[19..23] == h[16..20];
    assert t[24..] == h[20..];
    assert h == h[..8] + h[8..12] + h[12..16] + h[16..20] + h[20..];
  }

  /** Two different GUIDs never have the same text. */
  lemma GuidTextInjective(a: Guid, b: Guid)
    ensures GuidText(a) == GuidText(b) ==> a == b
  {
    if GuidText(a) == GuidText(b) {
      DigitsOfGuidText(a);
      DigitsOfGuidText(b);
      Pow16Of32();
      HexInjective(a as nat, b as nat, 32);
    }
  }
}
