/**
 * The chat-panel context: a provider holds one `isOpen` flag with three
 * operations that set, clear or negate it. Components outside any provider
 * see the default context, which reports closed and whose operations do
 * nothing.
 */
module Chat {

  datatype ChatOp = OpenOp | CloseOp | ToggleOp

  /** The provider's flag after one operation. */
  function Apply(isOpen: bool, op: ChatOp): bool {
    match op
    case OpenOp => true
    case CloseOp => false
    case ToggleOp => !isOpen
  }

  /** The flag after a sequence of operations, applied in order. */
  function ApplyAll(isOpen: bool, ops: seq<ChatOp>): bool
    decreases |ops|
  {
    if ops == [] then isOpen else ApplyAll(Apply(isOpen, ops[0]), ops[1..])
  }

  /** What `useChat()` finds: the default value, or the value of the nearest provider. */
  datatype ChatContext = DefaultContext | ProviderContext(isOpen: bool)

  function IsOpen(c: ChatContext): bool {
    match c
    case DefaultContext => false
    case ProviderContext(b) => b
  }

  /** Calling one of the context's operations. The default context's are empty. */
  function Dispatch(c: ChatContext, op: ChatOp): ChatContext {
    match c
    case DefaultContext => DefaultContext
    case ProviderContext(b) => ProviderContext(Apply(b, op))
  }

  function DispatchAll(c: ChatContext, ops: seq<ChatOp>): ChatContext
    decreases |ops|
  {
    if ops == [] then c else DispatchAll(Dispatch(c, ops[0]), ops[1..])
  }

  /** Opening always opens and closing always closes, whatever came before, so each is idempotent. */
  lemma OpenAndCloseAreIdempotent(b: bool)
    ensures Apply(b, OpenOp) && Apply(Apply(b, OpenOp), OpenOp) == Apply(b, OpenOp)
    ensures !Apply(b, CloseOp) && Apply(Apply(b, CloseOp), CloseOp) == Apply(b, CloseOp)
  {
  }

  /** Toggling negates, so toggling twice is the identity. */
  lemma ToggleTwiceIsIdentity(b: bool)
    ensures Apply(b, ToggleOp) == !b
    ensures Apply(Apply(b, ToggleOp), ToggleOp) == b
  {
  }

  /** Applying two sequences one after the other is applying their concatenation. */
  lemma {:induction false} ApplyAllConcat(b: bool, xs: seq<ChatOp>, ys: seq<ChatOp>)
    ensures ApplyAll(b, xs + ys) == ApplyAll(ApplyAll(b, xs), ys)
    decreases |xs|
  {
    if xs != [] {
      assert (xs + ys)[0] == xs[0] && (xs + ys)[1..] == xs[1..] + ys;
      ApplyAllConcat(Apply(b, xs[0]), xs[1..], ys);
    } else {
      assert xs + ys == ys;
    }
  }

  function Toggles(n: nat): (r: seq<ChatOp>)
    ensures |r| == n
    ensures forall k :: 0 <= k < n ==> r[k] == ToggleOp
  {
    if n == 0 then [] else [ToggleOp] + Toggles(n - 1)
  }

  /** `n` toggles leave the flag as it was when `n` is even and negate it when `n` is odd. */
  lemma {:induction false} TogglesFollowParity(b: bool, n: nat)
    ensures ApplyAll(b, Toggles(n)) == (if n % 2 == 0 then b else !b)
    decreases n
  {
    if n > 0 {
      assert Toggles(n)[1..] == Toggles(n - 1);
      TogglesFollowParity(!b, n - 1);
    }
  }

  /**
   * After any history, an open or a close followed by `n` toggles decides
   * the flag: the history before the open or close is forgotten.
   */
  lemma LastSetterDecides(b: bool, history: seq<ChatOp>, setter: ChatOp, n: nat)
    requires setter != ToggleOp
    ensures ApplyAll(b, history + [setter] + Toggles(n)) == ((setter == OpenOp) == (n % 2 == 0))
  {
    ApplyAllConcat(b, history + [setter], Toggles(n));
    ApplyAllConcat(b, history, [setter]);
    TogglesFollowParity(setter == OpenOp, n);
  }

  /** Outside a provider the chat reads closed and no operation changes that. */
  lemma {:induction false} DefaultContextIsInert(ops: seq<ChatOp>)
    ensures DispatchAll(DefaultContext, ops) == DefaultContext
    ensures !IsOpen(DispatchAll(DefaultContext, ops))
    decreases |ops|
  {
    if ops != [] {
      DefaultContextIsInert(ops[1..]);
    }
  }

  /** Inside a provider the context carries exactly the provider's flag. */
  lemma {:induction false} ProviderContextTracksFlag(b: bool, ops: seq<ChatOp>)
    ensures DispatchAll(ProviderContext(b), ops) == ProviderContext(ApplyAll(b, ops))
    decreases |ops|
  {
    if ops != [] {
      ProviderContextTracksFlag(Apply(b, ops[0]), ops[1..]);
    }
  }

  /** `ChatProvider`: the `isOpen` state hook and its three setters. */
  class ChatProvider {
    var isOpen: bool

    function Context(): ChatContext
      reads this
    {
      ProviderContext(isOpen)
    }

    constructor ()
      ensures !isOpen && Context() == ProviderContext(false)
    {
      isOpen := false;
    }

    method OpenChat()
      modifies this
      ensures isOpen && isOpen == Apply(old(isOpen), OpenOp)
      ensures Context() == Dispatch(old(Context()), OpenOp)
    {
      isOpen := true;
    }

    method CloseChat()
      modifies this
      ensures !isOpen && isOpen == Apply(old(isOpen), CloseOp)
      ensures Context() == Dispatch(old(Context()), CloseOp)
    {
      isOpen := false;
    }

    method ToggleChat()
      modifies this
      ensures isOpen == !old(isOpen) && isOpen == Apply(old(isOpen), ToggleOp)
      ensures Context() == Dispatch(old(Context()), ToggleOp)
    {
      isOpen := !isOpen;
    }
  }
}
