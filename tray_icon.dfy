/**
 * The tray icon controller and its hidden message window. The calls to
 * Shell_NotifyIcon, Shell_NotifyIconGetRect, SetForegroundWindow and
 * DefWindowProc go to the icon's log, DestroyWindow to the window's; what
 * CreateWindowEx, RegisterWindowMessage, the shell and DefWindowProc answer
 * are inputs. The messages CreateWindowEx and DestroyWindow send before they
 * return are delivered to the window procedure. Each method is proved
 * against the functions of NotifyIconProtocol.
 */
module TrayIcon {

  import opened Wrappers
  import opened NotifyIconProtocol

  datatype Win32Error = InvalidWindowHandle

  /** The window class registered for an icon: "SystemTrayIcon_" followed by its GUID. */
  function WindowClassName(id: Guid): (name: string)
    ensures |name| == 15 + 36 && name[..15] == "SystemTrayIcon_"
  {
    "SystemTrayIcon_" + GuidText(id)
  }

  /** Different icons register different window classes. */
  lemma WindowClassNamesDistinct(a: Guid, b: Guid)
    ensures a != b ==> WindowClassName(a) != WindowClassName(b)
  {
    if WindowClassName(a) == WindowClassName(b) {
      assert GuidText(a) == WindowClassName(a)[15..];
      assert GuidText(b) == WindowClassName(b)[15..];
      GuidTextInjective(a, b);
    }
  }

  /**
   * The hidden window that receives the shell's messages for one icon and
   * forwards each of them to the icon.
   */
  class SystemTrayIconWindow {
    var trayIcon: SystemTrayIcon?
    var windowHandle: HWND
    const className: string
    /** The handles passed to DestroyWindow, in order. */
    var destroyedWindows: seq<HWND>

    constructor (id: Guid, handle: HWND)
      requires handle != 0
      ensures trayIcon == null && windowHandle == handle && className == WindowClassName(id)
      ensures destroyedWindows == []
    {
      trayIcon := null;
      windowHandle := handle;
      className := WindowClassName(id);
      destroyedWindows := [];
    }

    /**
     * Registers the class and creates the window; `createdHandle` is what
     * CreateWindowEx answered. A default handle is a fatal error.
     */
    static method Create(id: Guid, createdHandle: HWND) returns (r: Result<SystemTrayIconWindow, Win32Error>)
      ensures r.Failure? <==> createdHandle == 0
      ensures r.Success? ==> && fresh(r.value)
                             && r.value.windowHandle == createdHandle
                             && r.value.className == WindowClassName(id)
                             && r.value.trayIcon == null
                             && r.value.destroyedWindows == []
    {
      if createdHandle == 0 {
        return Failure(InvalidWindowHandle);
      }
      var w := new SystemTrayIconWindow(id, createdHandle);
      return Success(w);
    }

    /** Every message goes to the owning icon unchanged; its answer is returned. */
    method WindowProc(m: WindowMessage, answers: NativeAnswers) returns (r: int)
      requires trayIcon != null && trayIcon.Valid()
      modifies trayIcon
      ensures trayIcon.Valid()
      ensures (trayIcon.Model(), r) ==
                Dispatch(old(trayIcon.Model()), trayIcon.Id, trayIcon.iconWindow.windowHandle,
                         trayIcon.taskbarRestartMessageId, m, answers)
    {
      r := trayIcon.WindowProc(m, answers);
    }

    /**
     * The window manager sends `ms` to the window procedure, one after
     * another, before the native call that caused them returns.
     */
    method Deliver(ms: seq<WindowMessage>)
      requires trayIcon != null && trayIcon.Valid()
      modifies trayIcon
      ensures trayIcon.Valid()
      ensures trayIcon.Model() ==
                Delivered(old(trayIcon.Model()), trayIcon.Id, trayIcon.iconWindow.windowHandle,
                          trayIcon.taskbarRestartMessageId, ms)
    {
      var k := 0;
      while k < |ms|
        invariant 0 <= k <= |ms|
        invariant trayIcon.Valid()
        invariant trayIcon.Model() ==
                    Delivered(old(trayIcon.Model()), trayIcon.Id, trayIcon.iconWindow.windowHandle,
                              trayIcon.taskbarRestartMessageId, ms[..k])
      {
        assert ms[..k + 1][..k] == ms[..k];
        var _ := WindowProc(ms[k], Unanswered);
        k := k + 1;
      }
      assert ms[..k] == ms;
    }

    /**
     * Destroys the window if it still has a handle, then forgets the handle and
     * the owner; a second call destroys nothing. DestroyWindow sends WM_DESTROY
     * and then WM_NCDESTROY to the window procedure before it returns, so the
     * owning icon handles both (deleting itself from the shell) while the
     * handle is still live.
     */
    method Dispose()
      requires windowHandle != 0 && trayIcon != null ==> trayIcon.Valid() && trayIcon.iconWindow == this
      modifies this`windowHandle, this`trayIcon, this`destroyedWindows
      modifies if windowHandle != 0 && trayIcon != null then {trayIcon} else {}
      ensures windowHandle == 0 && trayIcon == null
      ensures destroyedWindows ==
                old(destroyedWindows) + (if old(windowHandle) != 0 then [old(windowHandle)] else [])
      ensures old(windowHandle) != 0 && old(trayIcon) != null ==>
                && old(trayIcon).Valid()
                && old(trayIcon).Model() ==
                     Delivered(old(trayIcon.Model()), old(trayIcon).Id, old(windowHandle),
                               old(trayIcon).taskbarRestartMessageId, DestroyMessages(old(windowHandle)))
    {
      if windowHandle != 0 {
        destroyedWindows := destroyedWindows + [windowHandle];
        if trayIcon != null {
          Deliver(DestroyMessages(windowHandle));
        }
        windowHandle := 0;
      }
      trayIcon := null;
    }
  }

  /** A tray icon of the notification area. */
  class SystemTrayIcon {
    const Id: Guid
    /** What RegisterWindowMessage("TaskbarCreated") answered. */
    const taskbarRestartMessageId: nat
    const iconWindow: SystemTrayIconWindow

    var isVisible: bool
    var tooltip: string
    var icon: IconHandle
    var notifyIconCreated: bool
    /** The calls to Shell_NotifyIcon, Shell_NotifyIconGetRect, SetForegroundWindow and DefWindowProc, in order. */
    var calls: seq<NativeCall>
    /** Every MouseMoved, LeftClicked and RightClicked event raised, in order. */
    var raised: seq<MouseEvent>

    function Model(): IconState
      reads this
    {
      IconState(isVisible, tooltip, icon, notifyIconCreated, calls, raised)
    }

    ghost predicate Valid()
      reads this
    {
      Consistent(Model(), Id) && RegisteredMessageId(taskbarRestartMessageId)
    }

    /** While the hidden window is live, it forwards its messages to this icon. */
    predicate Linked()
      reads iconWindow
    {
      iconWindow.windowHandle != 0 ==> iconWindow.trayIcon == this
    }

    /**
     * The window is linked to this icon before it is created, so the messages
     * CreateWindowEx sends (`creation`: WM_GETMINMAXINFO, WM_NCCREATE,
     * WM_NCCALCSIZE, WM_CREATE) reach this icon's window procedure.
     */
    constructor (id: Guid, icon: IconHandle, tooltip: string, isVisible: bool,
                 taskbarRestartMessageId: nat, window: SystemTrayIconWindow, creation: seq<WindowMessage>)
      requires RegisteredMessageId(taskbarRestartMessageId)
      requires forall i :: 0 <= i < |creation| ==> OnlyForwarded(creation[i], taskbarRestartMessageId)
      modifies window`trayIcon
      ensures Valid() && Id == id && this.taskbarRestartMessageId == taskbarRestartMessageId
      ensures iconWindow == window && window.trayIcon == this && Linked()
      ensures Model() == CreateOrModify(Initial(icon, tooltip, isVisible).(calls := Forwards(creation)),
                                        id, window.windowHandle)
    {
      Id := id;
      this.icon := icon;
      this.tooltip := tooltip;
      this.taskbarRestartMessageId := taskbarRestartMessageId;
      this.isVisible := isVisible;
      iconWindow := window;
      notifyIconCreated := false;
      calls := [];
      raised := [];
      new;
      window.trayIcon := this;
      InitialConsistent(icon, tooltip, isVisible, id);
      DeliveredForwards(Model(), id, window.windowHandle, taskbarRestartMessageId, creation);
      window.Deliver(creation);
      CreateOrModifyNotifyIcon();
    }

    /**
     * `new SystemTrayIcon(...)`: creates the window (failing when CreateWindowEx
     * answers the default handle), whose creation messages the icon hands on
     * to DefWindowProc, and registers the icon if it is visible.
     */
    static method Create(id: Guid, icon: IconHandle, tooltip: string, isVisible: bool,
                         taskbarRestartMessageId: nat, createdHandle: HWND, creation: seq<WindowMessage>)
      returns (r: Result<SystemTrayIcon, Win32Error>)
      requires RegisteredMessageId(taskbarRestartMessageId)
      requires forall i :: 0 <= i < |creation| ==> OnlyForwarded(creation[i], taskbarRestartMessageId)
      ensures r.Failure? <==> createdHandle == 0
      ensures r.Success? ==> && fresh(r.value) && fresh(r.value.iconWindow)
                             && r.value.Valid() && r.value.Linked() && r.value.Id == id
                             && r.value.iconWindow.trayIcon == r.value
                             && r.value.iconWindow.windowHandle == createdHandle
                             && r.value.iconWindow.className == WindowClassName(id)
                             && r.value.Model() ==
                                  CreateOrModify(Initial(icon, tooltip, isVisible).(calls := Forwards(creation)),
                                                 id, createdHandle)
    {
      var w := SystemTrayIconWindow.Create(id, createdHandle);
      if w.Failure? {
        return Failure(w.error);
      }
      var t := new SystemTrayIcon(id, icon, tooltip, isVisible, taskbarRestartMessageId, w.value, creation);
      return Success(t);
    }

    /** Makes the icon visible; returns the same instance. */
    method Show() returns (r: SystemTrayIcon)
      requires Valid()
      modifies this`isVisible, this`notifyIconCreated, this`calls
      ensures r == this && Valid()
      ensures Model() == SetVisible(old(Model()), true, Id, iconWindow.windowHandle)
    {
      SetIsVisible(true);
      return this;
    }

    /** Hides the icon; returns the same instance. */
    method Hide() returns (r: SystemTrayIcon)
      requires Valid()
      modifies this`isVisible, this`notifyIconCreated, this`calls
      ensures r == this && Valid()
      ensures Model() == SetVisible(old(Model()), false, Id, iconWindow.windowHandle)
    {
      SetIsVisible(false);
      return this;
    }

    /** The private `IsVisible` setter. */
    method SetIsVisible(value: bool)
      requires Valid()
      modifies this`isVisible, this`notifyIconCreated, this`calls
      ensures Valid()
      ensures Model() == SetVisible(old(Model()), value, Id, iconWindow.windowHandle)
    {
      if isVisible != value {
        isVisible := value;
        if !value {
          DeleteNotifyIcon();
        } else {
          CreateOrModifyNotifyIcon();
        }
      }
    }

    /** The `Tooltip` setter. */
    method SetTooltip(value: string)
      requires Valid()
      modifies this`tooltip, this`notifyIconCreated, this`calls
      ensures Valid()
      ensures Model() == NotifyIconProtocol.SetTooltip(old(Model()), value, Id, iconWindow.windowHandle)
    {
      if tooltip != value {
        tooltip := value;
        CreateOrModifyNotifyIcon();
      }
    }

    /** The `Icon` setter. */
    method SetIcon(value: IconHandle)
      requires Valid()
      modifies this`icon, this`notifyIconCreated, this`calls
      ensures Valid()
      ensures Model() == NotifyIconProtocol.SetIcon(old(Model()), value, Id, iconWindow.windowHandle)
    {
      if icon != value {
        icon := value;
        CreateOrModifyNotifyIcon();
      }
    }

    method CreateOrModifyNotifyIcon()
      requires Valid()
      modifies this`notifyIconCreated, this`calls
      ensures Valid()
      ensures Model() == CreateOrModify(old(Model()), Id, iconWindow.windowHandle)
    {
      CreateOrModifyConsistent(Model(), Id, iconWindow.windowHandle);
      if isVisible {
        var data := NotifyIconData(iconWindow.windowHandle, Id, WM_FILES_UNIQUE_MESSAGE, icon, tooltip, 0);
        if !notifyIconCreated {
          var versioned := data.(uVersion := NOTIFYICON_VERSION_4);
          calls := calls + [ShellNotifyIcon(NIM_DELETE, data)];
          notifyIconCreated := true;
          calls := calls + [ShellNotifyIcon(NIM_ADD, data)];
          calls := calls + [ShellNotifyIcon(NIM_SETVERSION, versioned)];
          assert calls == old(calls) + [ShellNotifyIcon(NIM_DELETE, data), ShellNotifyIcon(NIM_ADD, data),
                                        ShellNotifyIcon(NIM_SETVERSION, versioned)];
        } else {
          calls := calls + [ShellNotifyIcon(NIM_MODIFY, data)];
        }
      }
    }

    method DeleteNotifyIcon()
      requires Valid()
      modifies this`notifyIconCreated, this`calls
      ensures Valid()
      ensures Model() == Delete(old(Model()), Id, iconWindow.windowHandle)
    {
      DeleteConsistent(Model(), Id, iconWindow.windowHandle);
      if notifyIconCreated {
        notifyIconCreated := false;
        var data := DeleteData(Id, iconWindow.windowHandle);
        calls := calls + [ShellNotifyIcon(NIM_DELETE, data)];
      }
    }

    /** Asks the shell for the icon's rectangle and computes its centre. */
    method GetCenterPointOfTrayIcon(hWnd: HWND, query: RectQuery) returns (p: Point)
      modifies this`calls
      ensures p == NotifyIconProtocol.GetCenterPointOfTrayIcon(query)
      ensures calls == old(calls) + [ShellNotifyIconGetRect(hWnd, Id)]
    {
      calls := calls + [ShellNotifyIconGetRect(hWnd, Id)];
      p := NotifyIconProtocol.GetCenterPointOfTrayIcon(query);
    }

    /** Raises `kind` at the icon's centre point, unless that point is empty. */
    method RaiseAtCenter(kind: MouseEventKind, hWnd: HWND, query: RectQuery)
      modifies this`calls, this`raised
      ensures var p := NotifyIconProtocol.GetCenterPointOfTrayIcon(query);
              && calls == old(calls) + [SetForegroundWindow(hWnd), ShellNotifyIconGetRect(hWnd, Id)]
              && raised == old(raised) + (if IsEmpty(p) then [] else [MouseEvent(kind, p)])
    {
      calls := calls + [SetForegroundWindow(hWnd)];
      var point := GetCenterPointOfTrayIcon(hWnd, query);
      if !IsEmpty(point) {
        raised := raised + [MouseEvent(kind, point)];
      }
    }

    /** The window procedure of the icon's hidden window. */
    method WindowProc(m: WindowMessage, answers: NativeAnswers) returns (r: int)
      requires Valid()
      modifies this
      ensures Valid()
      ensures (Model(), r) ==
                Dispatch(old(Model()), Id, iconWindow.windowHandle, taskbarRestartMessageId, m, answers)
    {
      DispatchConsistent(Model(), Id, iconWindow.windowHandle, taskbarRestartMessageId, m, answers);
      if m.uMsg == WM_FILES_UNIQUE_MESSAGE {
        var kind := EventKindOf(ManualDefinitions.LOWORD(m.lParam) as nat);
        if kind.Some? {
          RaiseAtCenter(kind.value, m.hWnd, answers.rectQuery);
          var point := NotifyIconProtocol.GetCenterPointOfTrayIcon(answers.rectQuery);
          var t := old(Model()).(calls := old(calls) + [SetForegroundWindow(m.hWnd), ShellNotifyIconGetRect(m.hWnd, Id)]);
          assert Model() == if IsEmpty(point) then t else t.(raised := t.raised + [MouseEvent(kind.value, point)]);
        }
        return 0;
      } else if m.uMsg == WM_DESTROY {
        DeleteNotifyIcon();
        return 0;
      } else {
        if m.uMsg == taskbarRestartMessageId {
          DeleteNotifyIcon();
          CreateOrModifyNotifyIcon();
        }
        calls := calls + [DefWindowProc(m.hWnd, m.uMsg, m.wParam, m.lParam)];
        return answers.defWindowProcResult;
      }
    }

    /**
     * Disposes the hidden window. Destroying a live window delivers WM_DESTROY
     * and WM_NCDESTROY to this icon, which deletes it from the shell if it is
     * registered and hands WM_NCDESTROY to DefWindowProc
     * (NotifyIconProtocol.DestroyWindowDeletes).
     */
    method Dispose()
      requires Valid() && Linked()
      modifies this, iconWindow`windowHandle, iconWindow`trayIcon, iconWindow`destroyedWindows
      ensures Valid() && Linked()
      ensures iconWindow.windowHandle == 0 && iconWindow.trayIcon == null
      ensures iconWindow.destroyedWindows ==
                old(iconWindow.destroyedWindows) +
                (if old(iconWindow.windowHandle) != 0 then [old(iconWindow.windowHandle)] else [])
      ensures Model() == if old(iconWindow.windowHandle) != 0
                         then Delivered(old(Model()), Id, old(iconWindow.windowHandle), taskbarRestartMessageId,
                                        DestroyMessages(old(iconWindow.windowHandle)))
                         else old(Model())
    {
      iconWindow.Dispose();
    }
  }
}
