/**
 * The sample application's tray icon manager: it shows the tray icon,
 * subscribes to its left and right clicks, and toggles the flyout on either
 * click. The toggle is specified on the flyout's state machine; the class
 * records its subscriptions and the order of its effects.
 */
module TrayIconManager {

  import opened Wrappers
  import opened FlyoutLayout
  import opened IslandBackdrop
  import FlyoutMachine
  import NotifyIconProtocol
  import TrayIcon
  import Flyout

  /**
   * What Show reads from the environment when a click handler opens the
   * flyout: the primary screen's work area, the measured size of the
   * control and the taskbar theme.
   */
  datatype ShowInputs = ShowInputs(workArea: Rect, desired: Size, theme: TaskbarTheme)

  /** The manager's effects, in the order it performs them. */
  datatype Step =
    | ShowIcon
    | Subscribe(kind: NotifyIconProtocol.MouseEventKind)
    | Unsubscribe(kind: NotifyIconProtocol.MouseEventKind)
    | HideIcon
    | DisposeIcon
    | DisposeFlyout

  /** What a click does to the flyout: Hide when it is open, Show otherwise; `desired` is its DesiredSize then. */
  function Toggle(s: FlyoutMachine.Machine, workArea: Rect, desired: Size): FlyoutMachine.Machine
  {
    if s.isOpen then FlyoutMachine.Hide(s, desired) else FlyoutMachine.Show(s, workArea, desired)
  }

  /**
   * A click followed by the completion of whatever storyboard it started
   * (with animations off nothing is pending and completion changes nothing).
   */
  function ClickAndSettle(s: FlyoutMachine.Machine, workArea: Rect, desired: Size): FlyoutMachine.Machine
  {
    FlyoutMachine.CompleteAnimation(Toggle(s, workArea, desired))
  }

  /** `n` clicks with the same inputs, each allowed to settle before the next. */
  function Clicks(s: FlyoutMachine.Machine, n: nat, workArea: Rect, desired: Size): FlyoutMachine.Machine
  {
    if n == 0 then s else ClickAndSettle(Clicks(s, n - 1, workArea, desired), workArea, desired)
  }

  /**
   * A flyout at rest: it has a host, no storyboard is pending, it was opened
   * only after its template was applied, and the host is visible exactly
   * when the flyout is open.
   */
  predicate Settled(s: FlyoutMachine.Machine)
  {
    && FlyoutMachine.Inv(s)
    && s.host.Some?
    && !s.playing
    && (s.isOpen ==> s.templateApplied)
    && s.host.value.visible == s.isOpen
  }

  /** The order of Dispose's effects, given whether there is an icon and a flyout. */
  function DisposeSteps(hasIcon: bool, hasFlyout: bool): (r: seq<Step>)
    ensures |r| == (if hasIcon then 4 else 0) + (if hasFlyout then 1 else 0)
    ensures hasIcon ==> r[..4] == [HideIcon, Unsubscribe(NotifyIconProtocol.LeftClicked),
                                   Unsubscribe(NotifyIconProtocol.RightClicked), DisposeIcon]
    ensures hasFlyout <==> (|r| > 0 && r[|r| - 1] == DisposeFlyout)
  {
    (if hasIcon then [HideIcon, Unsubscribe(NotifyIconProtocol.LeftClicked),
                      Unsubscribe(NotifyIconProtocol.RightClicked), DisposeIcon] else [])
    + (if hasFlyout then [DisposeFlyout] else [])
  }

  // ---------------------------------------------------------------------------
  // Properties of the toggle

  /**
   * A click while a storyboard is pending changes nothing: a click during
   * the reveal finds IsOpen false and Show refuses; a click during the
   * conceal finds IsOpen still true and Hide refuses.
   */
  lemma ClickIgnoredWhileAnimating(s: FlyoutMachine.Machine, workArea: Rect, desired: Size)
    requires FlyoutMachine.Inv(s) && s.playing
    ensures Toggle(s, workArea, desired) == s
  {
  }

  /** A click on a closed flyout opens it; a click on an open one closes it; either way it settles again. */
  lemma ClickFlips(s: FlyoutMachine.Machine, workArea: Rect, desired: Size)
    requires Settled(s)
    ensures Settled(ClickAndSettle(s, workArea, desired))
    ensures ClickAndSettle(s, workArea, desired).isOpen == !s.isOpen
  {
    var t := Toggle(s, workArea, desired);
    if s.isOpen {
      assert t == FlyoutMachine.Hide(s, desired);
    } else {
      assert t == FlyoutMachine.Show(s, workArea, desired);
      assert t.templateApplied;
    }
  }

  /** After `n` settled clicks the flyout is open exactly when it started open and `n` is even, or started closed and `n` is odd. */
  lemma {:induction false} ClicksAlternate(s: FlyoutMachine.Machine, n: nat, workArea: Rect, desired: Size)
    requires Settled(s)
    ensures Settled(Clicks(s, n, workArea, desired))
    ensures Clicks(s, n, workArea, desired).isOpen == (s.isOpen != (n % 2 == 1))
  {
    if n > 0 {
      var p := Clicks(s, n - 1, workArea, desired);
      ClicksAlternate(s, n - 1, workArea, desired);
      ClickFlips(p, workArea, desired);
      OddStep(n);
      assert Clicks(s, n, workArea, desired) == ClickAndSettle(p, workArea, desired);
    }
  }

  lemma OddStep(n: nat)
    requires n > 0
    ensures (n % 2 == 1) == !((n - 1) % 2 == 1)
  {
  }

  /** Once the flyout is disposed, a click leaves it as it is. */
  lemma ClickAfterDisposeInert(s: FlyoutMachine.Machine, workArea: Rect, desired: Size)
    ensures Toggle(FlyoutMachine.Dispose(s), workArea, desired) == FlyoutMachine.Dispose(s)
  {
    FlyoutMachine.DisposeIsFinal(s, workArea, desired);
  }

  /**
   * The icon's state after Dispose hid it and destroyed its window: hiding
   * deletes a registered icon, and a live window receives WM_DESTROY and
   * WM_NCDESTROY while it is destroyed.
   */
  function Released(s: NotifyIconProtocol.IconState, id: NotifyIconProtocol.Guid, hWnd: NotifyIconProtocol.HWND,
                    restartId: nat): NotifyIconProtocol.IconState
  {
    var hidden := NotifyIconProtocol.SetVisible(s, false, id, hWnd);
    if hWnd != 0 then NotifyIconProtocol.Delivered(hidden, id, hWnd, restartId, NotifyIconProtocol.DestroyMessages(hWnd))
    else hidden
  }

  /**
   * Disposing the manager leaves its icon hidden and unregistered from the
   * shell; the last call of a destroyed window hands WM_NCDESTROY to
   * DefWindowProc.
   */
  lemma ReleasedIsUnregistered(s: NotifyIconProtocol.IconState, id: NotifyIconProtocol.Guid,
                               hWnd: NotifyIconProtocol.HWND, restartId: nat)
    requires NotifyIconProtocol.RegisteredMessageId(restartId)
    ensures var t := Released(s, id, hWnd, restartId);
            && !t.visible
            && (hWnd != 0 || s.visible ==> !t.created)
            && (hWnd != 0 ==> t.calls[|t.calls| - 1] == NotifyIconProtocol.DefWindowProc(hWnd, NotifyIconProtocol.WM_NCDESTROY, 0, 0))
  {
    if hWnd != 0 {
      NotifyIconProtocol.DestroyWindowDeletes(NotifyIconProtocol.SetVisible(s, false, id, hWnd), id, hWnd, restartId);
    }
  }

  // ---------------------------------------------------------------------------
  // The manager

  class TrayIconManager {
    var trayIcon: TrayIcon.SystemTrayIcon?
    var flyout: Flyout.TrayIconFlyout?
    /** The manager's handler is subscribed to the icon's LeftClicked event. */
    var leftSubscribed: bool
    /** The manager's handler is subscribed to the icon's RightClicked event. */
    var rightSubscribed: bool
    /** The manager's effects so far, in order. */
    var steps: seq<Step>

    ghost predicate Valid()
      reads this, trayIcon, flyout, if trayIcon == null then {} else {trayIcon.iconWindow}
    {
      && (trayIcon != null ==> trayIcon.Valid() && trayIcon.Linked())
      && (flyout != null ==> flyout.Valid())
      && (trayIcon == null ==> !leftSubscribed && !rightSubscribed)
    }

    /** Subscribed to the event of `kind`. */
    predicate Subscribed(kind: NotifyIconProtocol.MouseEventKind)
      reads this
    {
      match kind
      case LeftClicked => leftSubscribed
      case RightClicked => rightSubscribed
      case MouseMoved => false
    }

    /** The lazily created single instance starts with neither an icon nor a flyout. */
    constructor ()
      ensures Valid() && trayIcon == null && flyout == null && steps == []
      ensures !Subscribed(NotifyIconProtocol.LeftClicked) && !Subscribed(NotifyIconProtocol.RightClicked)
    {
      trayIcon := null;
      flyout := null;
      leftSubscribed := false;
      rightSubscribed := false;
      steps := [];
    }

    /**
     * Takes the flyout (the sample's own flyout, created by the caller) and
     * the icon, makes the icon visible and subscribes to both clicks.
     */
    method Initialize(icon: TrayIcon.SystemTrayIcon, newFlyout: Flyout.TrayIconFlyout)
      requires icon.Valid() && icon.Linked() && newFlyout.Valid()
      modifies this, icon`isVisible, icon`notifyIconCreated, icon`calls
      ensures Valid() && trayIcon == icon && flyout == newFlyout
      ensures Subscribed(NotifyIconProtocol.LeftClicked) && Subscribed(NotifyIconProtocol.RightClicked)
      ensures icon.Model() == NotifyIconProtocol.SetVisible(old(icon.Model()), true, icon.Id, icon.iconWindow.windowHandle)
      ensures steps == old(steps) + [ShowIcon, Subscribe(NotifyIconProtocol.LeftClicked),
                                     Subscribe(NotifyIconProtocol.RightClicked)]
    {
      flyout := newFlyout;
      trayIcon := icon;
      var _ := icon.Show();
      steps := steps + [ShowIcon];
      leftSubscribed := true;
      steps := steps + [Subscribe(NotifyIconProtocol.LeftClicked)];
      rightSubscribed := true;
      steps := steps + [Subscribe(NotifyIconProtocol.RightClicked)];
    }

    /** The icon raised an event of `kind`: a subscribed click handler runs. */
    method Raise(kind: NotifyIconProtocol.MouseEventKind, inputs: ShowInputs)
      requires Valid()
      modifies flyout, if flyout == null then [] else flyout.islands
      ensures Valid()
      ensures flyout != null && Subscribed(kind) ==>
                flyout.Model() == Toggle(old(flyout.Model()), inputs.workArea, inputs.desired)
      ensures flyout != null && !Subscribed(kind) ==> flyout.Model() == old(flyout.Model())
    {
      if kind == NotifyIconProtocol.LeftClicked && leftSubscribed {
        OnLeftClicked(inputs);
      } else if kind == NotifyIconProtocol.RightClicked && rightSubscribed {
        OnRightClicked(inputs);
      }
    }

    /** The LeftClicked handler. */
    method OnLeftClicked(inputs: ShowInputs)
      requires Valid()
      modifies flyout, if flyout == null then [] else flyout.islands
      ensures Valid()
      ensures flyout != null ==> flyout.Model() == Toggle(old(flyout.Model()), inputs.workArea, inputs.desired)
    {
      ToggleFlyout(inputs);
    }

    /** The RightClicked handler, the same toggle as the left one. */
    method OnRightClicked(inputs: ShowInputs)
      requires Valid()
      modifies flyout, if flyout == null then [] else flyout.islands
      ensures Valid()
      ensures flyout != null ==> flyout.Model() == Toggle(old(flyout.Model()), inputs.workArea, inputs.desired)
    {
      ToggleFlyout(inputs);
    }

    /** Nothing without a flyout; otherwise Hide if it is open, Show if not. */
    method ToggleFlyout(inputs: ShowInputs)
      requires Valid()
      modifies flyout, if flyout == null then [] else flyout.islands
      ensures Valid()
      ensures flyout != null ==> flyout.Model() == Toggle(old(flyout.Model()), inputs.workArea, inputs.desired)
    {
      if flyout == null {
        return;
      }
      ToggleOpen(flyout, inputs);
    }

    /** Hide the flyout if it is open, Show it otherwise. */
    static method ToggleOpen(f: Flyout.TrayIconFlyout, inputs: ShowInputs)
      requires f.Valid()
      modifies f, f.islands
      ensures f.Valid() && f.Model() == Toggle(old(f.Model()), inputs.workArea, inputs.desired)
    {
      if f.isOpen {
        f.Hide(inputs.desired);
      } else {
        f.Show(inputs.workArea, inputs.desired, inputs.theme);
      }
    }

    /**
     * Hides the icon, unsubscribes both handlers, disposes the icon and then
     * the flyout; each step is skipped when its object is missing.
     */
    method Dispose()
      requires Valid()
      modifies this`leftSubscribed, this`rightSubscribed, this`steps
      modifies trayIcon, if trayIcon == null then {} else {trayIcon.iconWindow}
      modifies flyout
      ensures Valid()
      ensures !Subscribed(NotifyIconProtocol.LeftClicked) && !Subscribed(NotifyIconProtocol.RightClicked)
      ensures steps == old(steps) + DisposeSteps(trayIcon != null, flyout != null)
      ensures trayIcon != null ==>
                && trayIcon.Model() == Released(old(trayIcon.Model()), trayIcon.Id, old(trayIcon.iconWindow.windowHandle),
                                                trayIcon.taskbarRestartMessageId)
                && trayIcon.iconWindow.windowHandle == 0 && trayIcon.iconWindow.trayIcon == null
      ensures flyout != null ==> flyout.Model() == FlyoutMachine.Dispose(old(flyout.Model()))
    {
      if trayIcon != null {
        ReleaseIcon(trayIcon);
      }
      if flyout != null {
        flyout.Dispose();
        steps := steps + [DisposeFlyout];
      }
    }

    /** Dispose's part on the icon: hide it, unsubscribe both handlers, dispose it. */
    method ReleaseIcon(icon: TrayIcon.SystemTrayIcon)
      requires icon.Valid() && icon.Linked()
      modifies this`leftSubscribed, this`rightSubscribed, this`steps
      modifies icon, icon.iconWindow
      ensures icon.Valid() && icon.Linked() && !leftSubscribed && !rightSubscribed
      ensures steps == old(steps) + DisposeSteps(true, false)
      ensures icon.Model() == Released(old(icon.Model()), icon.Id, old(icon.iconWindow.windowHandle),
                                       icon.taskbarRestartMessageId)
      ensures icon.iconWindow.windowHandle == 0 && icon.iconWindow.trayIcon == null
    {
      var _ := icon.Hide();
      steps := steps + [HideIcon];
      leftSubscribed := false;
      steps := steps + [Unsubscribe(NotifyIconProtocol.LeftClicked)];
      rightSubscribed := false;
      steps := steps + [Unsubscribe(NotifyIconProtocol.RightClicked)];
      icon.Dispose();
      steps := steps + [DisposeIcon];
    }
  }
}
