/**
  Go's error-chain discipline as used by the demo program: sentinel errors
  compared by identity, plain leaf errors, `fmt.Errorf("...%w", inner)` wraps,
  and the structured `ConfigError`. Every error has at most one cause, reached
  with `Unwrap`; `errors.Is` and `errors.As` walk that linear chain.
*/
module ErrorChain {
  import opened Wrappers

  /** The sentinel errors the program compares by identity:
      its own `ErrResourceNotFound`, and `os.ErrNotExist` and `sql.ErrNoRows`
      from Go's standard library. */
  datatype Sentinel = ResourceNotFound | NotExist | NoRows

  /** The text each sentinel renders as. Only the first is defined by the
      program itself; the other two are the standard library's messages. */
  function SentinelMessage(s: Sentinel): string {
    match s
    case ResourceNotFound => "resource not found"
    case NotExist => "file does not exist"
    case NoRows => "sql: no rows in result set"
  }

  /** `ConfigError{FileName, Op, Err}`; `Err` may be nil. */
  datatype ConfigError = ConfigError(fileName: string, op: string, err: Option<Error>)
  {
    /** `(*ConfigError).Unwrap`: the cause it was built with. */
    function Unwrap(): Option<Error> {
      err
    }
  }

  /** The error values of the program. A sentinel is only ever the
      `SentinelError` shape: every `errors.New` and `fmt.Errorf` call allocates
      a fresh value, so no `Leaf`, `Wrap` or `Config` is identical to a sentinel. */
  datatype Error =
    | SentinelError(which: Sentinel)
    | Leaf(msg: string)                // errors.New, or fmt.Errorf without %w
    | Wrap(prefix: string, inner: Error)  // fmt.Errorf("<prefix>%w", inner)
    | Config(ce: ConfigError)          // &ConfigError{...}

  /** Number of errors on the chain that starts at `e`. */
  function Depth(e: Error): nat {
    match e
    case Wrap(_, inner) => 1 + Depth(inner)
    case Config(ConfigError(_, _, Some(cause))) => 1 + Depth(cause)
    case _ => 1
  }

  function Size(head: Option<Error>): nat {
    match head
    case None => 0
    case Some(e) => Depth(e)
  }

  /** The single-cause `Unwrap` that `errors.Is` and `errors.As` call: a `%w`
      wrap yields its inner error, a `ConfigError` its `Err`, and a sentinel or
      leaf has no cause. Unwrapping always moves strictly down the chain. */
  function Unwrap(e: Error): (cause: Option<Error>)
    ensures cause.Some? ==> Depth(cause.value) < Depth(e)
  {
    match e
    case Wrap(_, inner) => Some(inner)
    case Config(ce) => ce.Unwrap()
    case _ => None
  }

  /** The chain from an outermost error down to the error with no cause:
      each element is the `Unwrap` of the one before it. */
  function Chain(head: Option<Error>): (c: seq<Error>)
    decreases Size(head)
    ensures head.None? <==> c == []
    ensures head.Some? ==> c[0] == head.value
    ensures forall k {:trigger Unwrap(c[k])} :: 0 <= k < |c| - 1 ==> Unwrap(c[k]) == Some(c[k + 1])
    ensures c != [] ==> Unwrap(c[|c| - 1]).None?
  {
    match head
    case None => []
    case Some(e) => [e] + Chain(Unwrap(e))
  }

  /** `Error()`: a sentinel or leaf renders its text, a `%w` wrap renders its
      prefix followed by the inner message, and a `ConfigError` renders the
      operation, the file name and its cause (`<nil>` when there is none). */
  function Message(e: Error): string {
    match e
    case SentinelError(s) => SentinelMessage(s)
    case Leaf(msg) => msg
    case Wrap(prefix, inner) => prefix + Message(inner)
    case Config(ConfigError(fileName, op, cause)) =>
      "config error during '" + op + "' for file '" + fileName + "': "
      + (match cause case None => "<nil>" case Some(c) => Message(c))
  }

  /** `errors.Is(err, target)` for a sentinel target: the walk down the chain
      by `Unwrap`, comparing each link with the target by identity. */
  function Is(err: Option<Error>, target: Sentinel): bool
    decreases Size(err)
  {
    match err
    case None => false
    case Some(e) => e == SentinelError(target) || Is(Unwrap(e), target)
  }

  /** `errors.As(err, &ce)` with `ce *ConfigError`: the walk down the chain
      that stops at the first `ConfigError`. */
  function As(err: Option<Error>): Option<ConfigError>
    decreases Size(err)
  {
    match err
    case None => None
    case Some(Config(ce)) => Some(ce)
    case Some(e) => As(Unwrap(e))
  }

  /** `errors.Is` holds exactly when the sentinel is a link of the chain, at
      any depth; a nil error matches nothing. */
  lemma {:induction false} IsIffOnChain(err: Option<Error>, target: Sentinel)
    decreases Size(err)
    ensures Is(err, target) <==> SentinelError(target) in Chain(err)
  {
    match err
    case None =>
    case Some(e) =>
      assert Chain(err) == [e] + Chain(Unwrap(e));
      IsIffOnChain(Unwrap(e), target);
  }

  /** No link of chain `c` is a `ConfigError`. */
  predicate NoConfig(c: seq<Error>) {
    forall k :: 0 <= k < |c| ==> !c[k].Config?
  }

  /** `k` is the position of the outermost `ConfigError` of chain `c`. */
  predicate FirstConfigAt(c: seq<Error>, k: nat) {
    k < |c| && c[k].Config? && forall j :: 0 <= j < k ==> !c[j].Config?
  }

  /** `errors.As` returns the OUTERMOST `ConfigError` of the chain, and finds
      nothing exactly when no link of the chain is a `ConfigError`. */
  lemma {:induction false} AsFindsFirstConfig(err: Option<Error>)
    decreases Size(err)
    ensures As(err).None? <==> NoConfig(Chain(err))
    ensures As(err).Some? ==>
      exists k: nat :: FirstConfigAt(Chain(err), k) && Chain(err)[k] == Config(As(err).value)
  {
    match err
    case None =>
    case Some(e) =>
      var c := Chain(err);
      assert c == [e] + Chain(Unwrap(e));
      if e.Config? {
        assert As(err) == Some(e.ce);
        assert FirstConfigAt(c, 0) && c[0] == Config(e.ce);
        assert !NoConfig(c);
      } else {
        AsFindsFirstConfig(Unwrap(e));
        assert forall k :: 1 <= k < |c| ==> c[k] == Chain(Unwrap(e))[k - 1];
        if As(Unwrap(e)).Some? {
          var k: nat :| FirstConfigAt(Chain(Unwrap(e)), k) && Chain(Unwrap(e))[k] == Config(As(Unwrap(e)).value);
          assert c[k + 1] == Chain(Unwrap(e))[k];
          assert FirstConfigAt(c, k + 1);
        }
      }
  }

  /** Constructing an error and unwrapping it gives back exactly the cause it
      was built with, for a `ConfigError` and for a `%w` wrap alike. */
  lemma UnwrapReturnsCause(fileName: string, op: string, cause: Option<Error>, prefix: string, inner: Error)
    ensures Unwrap(Config(ConfigError(fileName, op, cause))) == cause
    ensures Unwrap(Wrap(prefix, inner)) == Some(inner)
  {
  }

  /** The part of the message an error contributes itself, before its cause's message. */
  function Fragment(e: Error): string {
    match e
    case SentinelError(s) => SentinelMessage(s)
    case Leaf(msg) => msg
    case Wrap(prefix, _) => prefix
    case Config(ConfigError(fileName, op, cause)) =>
      "config error during '" + op + "' for file '" + fileName + "': "
      + (if cause.None? then "<nil>" else "")
  }

  function JoinFragments(c: seq<Error>): string {
    if c == [] then "" else Fragment(c[0]) + JoinFragments(c[1..])
  }

  /** A rendered message is the concatenation, outermost first, of what every
      error on its chain contributes: no link of the chain is lost in the text. */
  lemma {:induction false} MessageIsChainFragments(e: Error)
    decreases Depth(e)
    ensures Message(e) == JoinFragments(Chain(Some(e)))
  {
    var c := Chain(Some(e));
    assert c == [e] + Chain(Unwrap(e));
    assert c[1..] == Chain(Unwrap(e));
    match Unwrap(e)
    case None =>
      assert c == [e];
    case Some(cause) =>
      MessageIsChainFragments(cause);
  }

  predicate IsSuffix(tail: string, whole: string) {
    |tail| <= |whole| && whole[|whole| - |tail|..] == tail
  }

  /** The message of an error ends with the message of its direct cause. */
  lemma CauseMessageIsSuffix(e: Error)
    requires Unwrap(e).Some?
    ensures IsSuffix(Message(Unwrap(e).value), Message(e))
  {
    var m, cm := Message(e), Message(Unwrap(e).value);
    match e
    case Wrap(prefix, inner) =>
      assert m == prefix + cm;
      assert m[|m| - |cm|..] == cm;
    case Config(ConfigError(fileName, op, cause)) =>
      var head := "config error during '" + op + "' for file '" + fileName + "': ";
      assert m == head + cm;
      assert m[|m| - |cm|..] == cm;
  }

  /** The message of an error ends with the message of every error below it on
      the chain, so the root cause is always visible in the rendered text. */
  lemma {:induction false} CauseMessagesVisible(e: Error)
    decreases Depth(e)
    ensures forall k :: 0 <= k < |Chain(Some(e))| ==> IsSuffix(Message(Chain(Some(e))[k]), Message(e))
  {
    var c := Chain(Some(e));
    assert c == [e] + Chain(Unwrap(e));
    match Unwrap(e)
    case None =>
    case Some(cause) =>
      CauseMessagesVisible(cause);
      CauseMessageIsSuffix(e);
      forall k | 1 <= k < |c|
        ensures IsSuffix(Message(c[k]), Message(e))
      {
        assert c[k] == Chain(Some(cause))[k - 1];
        SuffixTransitive(Message(c[k]), Message(cause), Message(e));
      }
  }

  lemma SuffixTransitive(a: string, b: string, c: string)
    requires IsSuffix(a, b) && IsSuffix(b, c)
    ensures IsSuffix(a, c)
  {
    assert c[|c| - |a|..] == c[|c| - |b|..][|b| - |a|..];
  }

  /** Wrapping `e` with `fmt.Errorf("<p>%w", ...)` once per prefix; the first
      prefix is the outermost layer. */
  function WrapLayers(prefixes: seq<string>, e: Error): Error {
    if prefixes == [] then e else Wrap(prefixes[0], WrapLayers(prefixes[1..], e))
  }

  function Concat(parts: seq<string>): string {
    if parts == [] then "" else parts[0] + Concat(parts[1..])
  }

  /** Any number of `%w` wraps puts that many links on top of the wrapped
      error's chain and keeps that chain intact beneath them: unwrapping
      `|prefixes|` times returns exactly `e`. */
  lemma {:induction false} WrapLayersChain(prefixes: seq<string>, e: Error)
    ensures |Chain(Some(WrapLayers(prefixes, e)))| == |prefixes| + |Chain(Some(e))|
    ensures Chain(Some(WrapLayers(prefixes, e)))[|prefixes|..] == Chain(Some(e))
    ensures forall k :: 0 <= k < |prefixes| ==> Chain(Some(WrapLayers(prefixes, e)))[k].Wrap?
  {
    if prefixes != [] {
      var rest := WrapLayers(prefixes[1..], e);
      WrapLayersChain(prefixes[1..], e);
      var c := Chain(Some(WrapLayers(prefixes, e)));
      assert c == [Wrap(prefixes[0], rest)] + Chain(Some(rest));
      assert c[|prefixes|..] == Chain(Some(rest))[|prefixes| - 1..];
    }
  }

  /** `%w` wraps are transparent to inspection: for every sentinel, `errors.Is`
      answers the same on the wrapped error as on `e`, `errors.As` finds the
      same `ConfigError`, and the message is the prefixes followed by `e`'s. */
  lemma {:induction false} WrapLayersTransparent(prefixes: seq<string>, e: Error)
    ensures forall s :: Is(Some(WrapLayers(prefixes, e)), s) == Is(Some(e), s)
    ensures As(Some(WrapLayers(prefixes, e))) == As(Some(e))
    ensures Message(WrapLayers(prefixes, e)) == Concat(prefixes) + Message(e)
  {
    if prefixes != [] {
      WrapLayersTransparent(prefixes[1..], e);
      var rest := WrapLayers(prefixes[1..], e);
      assert Message(WrapLayers(prefixes, e)) == prefixes[0] + Message(rest);
    }
  }

  /** `errors.Is` finds a sentinel placed at any depth of the chain, and
      never one that is not on it. */
  lemma SentinelFoundAtAnyDepth(prefixes: seq<string>, s: Sentinel, t: Sentinel)
    ensures Is(Some(WrapLayers(prefixes, SentinelError(s))), s)
    ensures Is(Some(WrapLayers(prefixes, SentinelError(s))), t) <==> s == t
  {
    WrapLayersTransparent(prefixes, SentinelError(s));
  }
}
