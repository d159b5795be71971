/**
 * The cart hard lock: while any app widget wrapper is still loading, the
 * add-to-cart and payment buttons are disabled and every route to the cart
 * (pointer events, form submits, fetch, XMLHttpRequest) is blocked.
 *
 * The interceptors are modelled by the decision each one takes (forward or
 * block) as a function of the lock flag and what the call targets; the lock
 * itself, the install-once flag and an XMLHttpRequest are objects.
 */
module CartGuard {
  import opened Wrappers
  import opened Strings

  /** The endpoints treated as cart-mutating, matched as substrings of the request URL. */
  const CartPaths: seq<string> := ["/cart/add", "/cart/add.js", "/cart/change", "/cart/update", "/cart/clear"]

  // ---------------------------------------------------------------------------
  // Classifying request URLs

  /** The first argument of `fetch` (or the URL of `XMLHttpRequest.open`). */
  datatype FetchInput =
    | UrlString(s: string)              // a string URL
    | RequestObject(url: Option<string>) // an object with a `url` property (a Request)
    | OtherValue                        // undefined, or an object without `url` (a URL instance)

  /** The string the classifier searches: the string itself, `input.url`, or "". */
  function Href(input: FetchInput): string
  {
    match input
    case UrlString(s) => s
    case RequestObject(u) => u.GetOr("")
    case OtherValue => ""
  }

  /** `paths.some(p => href.includes(p))`. */
  function AnyPathIn(href: string, paths: seq<string>): (r: bool)
    ensures r <==> exists k :: 0 <= k < |paths| && Contains(href, paths[k])
    decreases |paths|
  {
    if paths == [] then false
    else Contains(href, paths[0]) || AnyPathIn(href, paths[1..])
  }

  /** isCartURL. */
  function IsCartURL(input: FetchInput): (r: bool)
    ensures r <==> exists k :: 0 <= k < |CartPaths| && Contains(Href(input), CartPaths[k])
  {
    AnyPathIn(Href(input), CartPaths)
  }

  /** An input with no URL to search (a `URL` instance, `undefined`, a Request without `url`) is never a cart URL. */
  lemma EmptyHrefIsNotCartURL(input: FetchInput)
    requires Href(input) == ""
    ensures !IsCartURL(input)
  {
    forall k | 0 <= k < |CartPaths| ensures !Contains(Href(input), CartPaths[k]) {
      assert |CartPaths[k]| > 0;
    }
  }

  /** "/cart/add.js" adds nothing to the list: every URL containing it contains "/cart/add". */
  lemma CartPathsReduce(input: FetchInput)
    ensures var h := Href(input);
      IsCartURL(input) <==>
        Contains(h, "/cart/add") || Contains(h, "/cart/change") || Contains(h, "/cart/update") || Contains(h, "/cart/clear")
  {
    var h := Href(input);
    if Contains(h, "/cart/add.js") {
      assert "/cart/add.js" == "/cart/add" + ".js";
      ContainsLonger(h, "/cart/add", ".js");
    }
    if Contains(h, "/cart/add") { assert Contains(h, CartPaths[0]); }
    if Contains(h, "/cart/change") { assert Contains(h, CartPaths[2]); }
    if Contains(h, "/cart/update") { assert Contains(h, CartPaths[3]); }
    if Contains(h, "/cart/clear") { assert Contains(h, CartPaths[4]); }
  }

  /** Any URL string carrying a cart endpoint, with whatever host before and query after, is a cart URL. */
  lemma EmbeddedCartPathIsCartURL(prefix: string, k: nat, suffix: string)
    requires k < |CartPaths|
    ensures IsCartURL(UrlString(prefix + CartPaths[k] + suffix))
  {
    var s := prefix + CartPaths[k] + suffix;
    assert s[|prefix|..|prefix| + |CartPaths[k]|] == CartPaths[k];
    assert OccursAt(s, CartPaths[k], |prefix|);
  }

  // ---------------------------------------------------------------------------
  // The interceptors' decisions

  datatype Verdict = Forward | Block

  /** What `closest(...)` finds from an event target or form: the guarded selectors it lies inside. */
  datatype Target = Target(inProductFormSubmit: bool, inAddButton: bool, inPaymentButton: bool, inProductForm: bool)

  /** The element is one of the guarded buttons (or inside one). */
  predicate IsGuardedButton(t: Target)
  {
    t.inProductFormSubmit || t.inAddButton || t.inPaymentButton
  }

  /** Capture-phase pointerdown/mousedown/click: cancel only while locked and on a guarded button. */
  function PointerVerdict(locked: bool, target: Option<Target>): Verdict
  {
    if !locked then Forward
    else if target.Some? && IsGuardedButton(target.value) then Block
    else Forward
  }

  /** Capture-phase submit: cancel only while locked and inside the product form. */
  function SubmitEventVerdict(locked: bool, target: Option<Target>): Verdict
  {
    if !locked then Forward
    else if target.Some? && target.value.inProductForm then Block
    else Forward
  }

  /** The wrapped `form.submit()` / `form.requestSubmit()`: dropped while locked for the product form. */
  function ProgrammaticSubmitVerdict(locked: bool, form: Target): Verdict
  {
    if locked && form.inProductForm then Block else Forward
  }

  datatype DomException = DomException(message: string, name: string)

  /** The wrapped fetch either passes the untouched arguments on or rejects. */
  datatype FetchResult = Passed(input: FetchInput) | Rejected(error: DomException)

  function FetchVerdict(locked: bool, input: FetchInput): FetchResult
  {
    if locked && IsCartURL(input) then Rejected(DomException("Cart locked", "AbortError"))
    else Passed(input)
  }

  /** The wrapped `send`: swallowed while locked when `open` marked the request as a cart request. */
  function XhrSendVerdict(locked: bool, markedCart: bool): Verdict
  {
    if locked && markedCart then Block else Forward
  }

  /** fetch is rejected with an AbortError exactly for a cart URL while locked, and otherwise forwarded unchanged. */
  lemma FetchBlockedExactly(locked: bool, input: FetchInput)
    ensures FetchVerdict(locked, input).Rejected? <==> locked && IsCartURL(input)
    ensures FetchVerdict(locked, input).Rejected? ==> FetchVerdict(locked, input).error.name == "AbortError"
    ensures FetchVerdict(locked, input).Passed? ==> FetchVerdict(locked, input).input == input
  {
  }

  /** An XMLHttpRequest opened on a URL is swallowed exactly when fetch of that URL would be rejected. */
  lemma XhrAgreesWithFetch(locked: bool, url: FetchInput)
    ensures XhrSendVerdict(locked, IsCartURL(url)) == Block <==> FetchVerdict(locked, url).Rejected?
  {
  }

  /** Once unlocked, every interceptor forwards. */
  lemma UnlockedForwardsEverything(target: Option<Target>, form: Target, input: FetchInput, markedCart: bool)
    ensures PointerVerdict(false, target) == Forward
    ensures SubmitEventVerdict(false, target) == Forward
    ensures ProgrammaticSubmitVerdict(false, form) == Forward
    ensures FetchVerdict(false, input) == Passed(input)
    ensures XhrSendVerdict(false, markedCart) == Forward
  {
  }

  /** While locked, every route into the cart is blocked, and nothing outside the guarded targets is. */
  lemma LockedBlocksCartRoutes(target: Target, input: FetchInput)
    ensures PointerVerdict(true, Some(target)) == Block <==> IsGuardedButton(target)
    ensures SubmitEventVerdict(true, Some(target)) == Block <==> target.inProductForm
    ensures ProgrammaticSubmitVerdict(true, target) == Block <==> target.inProductForm
    ensures FetchVerdict(true, input).Rejected? <==> IsCartURL(input)
    ensures XhrSendVerdict(true, IsCartURL(input)) == Block <==> IsCartURL(input)
    ensures PointerVerdict(true, None) == Forward && SubmitEventVerdict(true, None) == Forward
  {
  }

  /**
   * The elements as the page nests them: the product form's submit button lies
   * inside the product form.
   */
  predicate Nested(t: Target)
  {
    t.inProductFormSubmit ==> t.inProductForm
  }

  /**
   * While locked, a product-form submission is stopped on every route: the
   * click on its submit button, the submit event the form fires (from that
   * click or from Enter in a field; its target is the form), and
   * `submit()`/`requestSubmit()` called on the form.
   */
  lemma ProductFormSubmissionBlockedEveryWay(button: Target, form: Target)
    requires Nested(button) && button.inProductFormSubmit
    requires form.inProductForm
    ensures PointerVerdict(true, Some(button)) == Block
    ensures SubmitEventVerdict(true, Some(form)) == Block
    ensures ProgrammaticSubmitVerdict(true, form) == Block
  {
  }

  // ---------------------------------------------------------------------------
  // The lock

  /** Which guarded selector a button matched. */
  datatype ButtonKind = ProductFormSubmit | AddButton | PaymentButton

  /** A guarded button: the `disabled` attribute, the `is-disabled` class and `aria-busy`. */
  datatype Button = Button(kind: ButtonKind, disabled: bool, isDisabledClass: bool, ariaBusy: bool)

  /** The button shows lock state `s` on all three markers. */
  predicate Shows(b: Button, s: bool)
  {
    b.disabled == s && b.isDisabledClass == s && b.ariaBusy == s
  }

  predicate AllShow(buttons: seq<Button>, s: bool)
  {
    forall i :: 0 <= i < |buttons| ==> Shows(buttons[i], s)
  }

  function WithLock(b: Button, s: bool): Button
  {
    b.(disabled := s, isDisabledClass := s, ariaBusy := s)
  }

  /** Every button set to show `s`, nothing else about them changed. */
  function Applied(buttons: seq<Button>, s: bool): (r: seq<Button>)
    ensures |r| == |buttons| && AllShow(r, s)
    ensures forall i :: 0 <= i < |r| ==> r[i].kind == buttons[i].kind
  {
    seq(|buttons|, i requires 0 <= i < |buttons| => WithLock(buttons[i], s))
  }

  /** The buttons after `setLock(state)` from lock flag `locked`. */
  function SetLockButtons(locked: bool, buttons: seq<Button>, state: bool): seq<Button>
  {
    if locked == state then buttons else Applied(buttons, state)
  }

  /** anyAppsLoading's `querySelector('.the-app-wrapper.loading')`: the first wrapper still loading. */
  function FirstLoading(wrappers: seq<bool>): (r: Option<nat>)
    ensures r.Some? ==> r.value < |wrappers| && wrappers[r.value] && forall j :: 0 <= j < r.value ==> !wrappers[j]
    ensures r.None? <==> forall j :: 0 <= j < |wrappers| ==> !wrappers[j]
    decreases |wrappers|
  {
    if wrappers == [] then None
    else if wrappers[0] then Some(0)
    else
      match FirstLoading(wrappers[1..])
      case None => None
      case Some(k) => Some(k + 1)
  }

  /** anyAppsLoading: some wrapper still carries `loading`. */
  function AnyAppsLoading(wrappers: seq<bool>): (r: bool)
    ensures r <==> exists i :: 0 <= i < |wrappers| && wrappers[i]
  {
    FirstLoading(wrappers) != None
  }

  /** Clearing one wrapper while another still loads keeps the lock; clearing the last one releases it. */
  lemma ClearingOneWrapper(wrappers: seq<bool>, i: nat)
    requires i < |wrappers|
    ensures (exists j :: 0 <= j < |wrappers| && j != i && wrappers[j]) ==> AnyAppsLoading(wrappers[i := false])
    ensures (forall j :: 0 <= j < |wrappers| && j != i ==> !wrappers[j]) ==> !AnyAppsLoading(wrappers[i := false])
  {
    if j :| 0 <= j < |wrappers| && j != i && wrappers[j] {
      assert wrappers[i := false][j];
    }
  }

  /** setLock(locked): the re-apply after the section's content changes never touches the buttons. */
  lemma ReapplyIsNoOp(locked: bool, buttons: seq<Button>)
    ensures SetLockButtons(locked, buttons, locked) == buttons
  {
  }

  /** A button inserted while locked keeps showing "unlocked" after the re-apply. */
  lemma ReplacedButtonStaysEnabled()
    ensures var inserted := [Button(AddButton, false, false, false)];
      !AllShow(SetLockButtons(true, inserted, true), true)
  {
    var inserted := [Button(AddButton, false, false, false)];
    assert !Shows(SetLockButtons(true, inserted, true)[0], true);
  }

  /**
   * The page as the lock sees it: the loading flag of each app wrapper, the
   * guarded buttons, and the root element's `apps-loading` class.
   */
  class CartLock {
    var locked: bool
    var buttons: seq<Button>
    var wrappersLoading: seq<bool>
    var rootAppsLoading: bool

    /** The root class mirrors the lock flag. */
    ghost predicate Valid()
      reads this
    {
      rootAppsLoading == locked
    }

    constructor (wrappers: seq<bool>, pageButtons: seq<Button>)
      ensures Valid() && !locked
      ensures wrappersLoading == wrappers && buttons == pageButtons
    {
      locked := false;
      buttons := pageButtons;
      wrappersLoading := wrappers;
      rootAppsLoading := false;
    }

    method SetLock(state: bool)
      requires Valid()
      modifies this
      ensures Valid() && locked == state
      ensures buttons == SetLockButtons(old(locked), old(buttons), state)
      ensures old(locked) != state ==> AllShow(buttons, state)
      ensures wrappersLoading == old(wrappersLoading)
    {
      if locked == state {
        return;
      }
      locked := state;
      var i := 0;
      while i < |buttons|
        invariant 0 <= i <= |buttons| == |old(buttons)|
        invariant forall j :: 0 <= j < i ==> buttons[j] == WithLock(old(buttons)[j], state)
        invariant forall j :: i <= j < |buttons| ==> buttons[j] == old(buttons)[j]
        invariant locked == state && wrappersLoading == old(wrappersLoading)
      {
        buttons := buttons[i := WithLock(buttons[i], state)];
        i := i + 1;
      }
      rootAppsLoading := state;
    }

    method Refresh()
      requires Valid()
      modifies this
      ensures Valid()
      ensures locked == AnyAppsLoading(wrappersLoading)
      ensures buttons == SetLockButtons(old(locked), old(buttons), locked)
      ensures wrappersLoading == old(wrappersLoading)
    {
      SetLock(AnyAppsLoading(wrappersLoading));
    }

    /** Wrapper `i` gains or loses `loading`; its class observer re-evaluates the lock. */
    method WrapperClassChanged(i: nat, loading: bool)
      requires Valid() && i < |wrappersLoading|
      modifies this
      ensures Valid()
      ensures wrappersLoading == old(wrappersLoading)[i := loading]
      ensures locked == AnyAppsLoading(wrappersLoading)
      ensures buttons == SetLockButtons(old(locked), old(buttons), locked)
    {
      wrappersLoading := wrappersLoading[i := loading];
      Refresh();
    }

    /** Re-apply the current lock to every button present now. */
    method ReapplyLock()
      requires Valid()
      modifies this`buttons
      ensures buttons == Applied(old(buttons), locked)
    {
      var i := 0;
      while i < |buttons|
        invariant 0 <= i <= |buttons| == |old(buttons)|
        invariant forall j :: 0 <= j < i ==> buttons[j] == WithLock(old(buttons)[j], locked)
        invariant forall j :: i <= j < |buttons| ==> buttons[j] == old(buttons)[j]
      {
        buttons := buttons[i := WithLock(buttons[i], locked)];
        i := i + 1;
      }
    }

    /**
     * The corrected re-apply: while locked, the buttons the section re-renders
     * are locked too; while unlocked they stay as inserted, so a button the
     * theme disabled for another reason keeps its markers.
     */
    method ButtonsReplaced(newButtons: seq<Button>)
      requires Valid()
      modifies this
      ensures Valid() && locked == old(locked) && wrappersLoading == old(wrappersLoading)
      ensures buttons == if locked then Applied(newButtons, true) else newButtons
      ensures locked ==> AllShow(buttons, true)
    {
      buttons := newButtons;
      if locked {
        ReapplyLock();
      }
    }

    /** The section re-renders its buttons and, as written, calls `setLock(locked)`: the new buttons stay as inserted. */
    method ButtonsReplacedAsWritten(newButtons: seq<Button>)
      requires Valid()
      modifies this
      ensures Valid() && locked == old(locked) && wrappersLoading == old(wrappersLoading)
      ensures buttons == newButtons
    {
      buttons := newButtons;
      SetLock(locked);
    }
  }

  // ---------------------------------------------------------------------------
  // Installing the hard guards

  /** The window global `__cartHardLockInstalled` and the number of guard sets installed so far. */
  class Window {
    var cartHardLockInstalled: bool
    var guardSetsInstalled: nat

    ghost predicate Valid()
      reads this
    {
      guardSetsInstalled == if cartHardLockInstalled then 1 else 0
    }

    constructor ()
      ensures Valid() && !cartHardLockInstalled
    {
      cartHardLockInstalled := false;
      guardSetsInstalled := 0;
    }

    /** One execution of the guard script: install only when the flag is not yet set. */
    method RunGuardScript()
      requires Valid()
      modifies this
      ensures Valid() && cartHardLockInstalled && guardSetsInstalled == 1
      ensures guardSetsInstalled == old(guardSetsInstalled) + (if old(cartHardLockInstalled) then 0 else 1)
    {
      if !cartHardLockInstalled {
        cartHardLockInstalled := true;
        guardSetsInstalled := guardSetsInstalled + 1;
      }
    }
  }

  // ---------------------------------------------------------------------------
  // XMLHttpRequest

  /** A request object: `open` marks it as a cart request; `send` may abort it. */
  class XhrRequest {
    var isCartReq: bool
    var aborted: bool
    var transmitted: bool

    constructor ()
      ensures !isCartReq && !aborted && !transmitted
    {
      isCartReq := false;
      aborted := false;
      transmitted := false;
    }

    method Open(url: FetchInput)
      modifies this`isCartReq
      ensures isCartReq == IsCartURL(url)
    {
      isCartReq := IsCartURL(url);
    }

    method Send(locked: bool) returns (verdict: Verdict)
      modifies this
      ensures verdict == XhrSendVerdict(locked, isCartReq) && isCartReq == old(isCartReq)
      ensures verdict == Block ==> aborted && transmitted == old(transmitted)
      ensures verdict == Forward ==> transmitted && aborted == old(aborted)
    {
      if locked && isCartReq {
        aborted := true;
        return Block;
      }
      transmitted := true;
      return Forward;
    }
  }
}
