/** Values shared by every component: optional values, the errors the
    program raises, the effects it has on the outside world (key events and
    pauses), and the run of an operation as the effects it had plus whether it
    returned normally or raised. */
module Effects {

  datatype Option<+T> = None | Some(value: T)

  datatype Error =
    | KeyError(category: string, name: string)   // action missing from its category
    | MissingPoint(name: string)                  // pattern point missing
    | MissingField(section: string)               // required field missing in a parsed document
    | NoKeyBound(category: string, action: string) // ValueError of hold_action
    | UnknownKey(key: string)                     // ValueError of _vk
    | ZeroDivision                                // hold time with a zero speed
    | WindowNotFound(title: string)
    | InvalidMacro
    | NoMacroLoaded
    | NoWindowHandle
    | NotIterable                                 // TypeError of unpacking a non-tuple
    | FileNotFound(path: string)
    | NotAMapping                                 // AttributeError of .get on a non-dict document
    | InvalidHandle(handle: int)                  // a Win32 call on a handle no window has
    | InvalidShape(h: int, w: int)                // a bitmap of a non-positive size cannot be reshaped
    | EmptyImage                                  // cv.cvtColor on an image with no pixels

  datatype Result<+T> = Ok(value: T) | Err(error: Error)

  datatype Outcome = Pass | Fail(error: Error)

  /** A pause: a fixed number of seconds, or a draw from a uniform band
      (random_num), which the model keeps symbolic. */
  datatype Delay = Seconds(s: real) | Uniform(lo: real, hi: real)

  /** `if interval > 0` on a delay: a draw from a band above zero is positive. */
  predicate Positive(d: Delay) {
    match d
    case Seconds(s) => s > 0.0
    case Uniform(lo, _) => lo > 0.0
  }

  /** One effect on the outside world: a virtual-key event or a sleep. */
  datatype Effect = KeyDown(vk: int) | KeyUp(vk: int) | Sleep(d: Delay)

  /** What an operation did before it returned or raised. */
  datatype Run = Run(effects: seq<Effect>, outcome: Outcome)

  const Done: Run := Run([], Pass)

  function Raise(e: Error): Run {
    Run([], Fail(e))
  }

  function Pause(s: real): Run {
    Run([Sleep(Seconds(s))], Pass)
  }

  /** `a` followed by `b`; an exception raised by `a` skips `b`. */
  function Then(a: Run, b: Run): Run {
    if a.outcome.Fail? then a else Run(a.effects + b.effects, b.outcome)
  }

  /** A `for _ in range(n)` loop over `body`, stopped by its first exception. */
  function Repeat(body: Run, n: nat): Run {
    if n == 0 then Done else Then(Repeat(body, n - 1), body)
  }

  /** `n` copies of `s` laid end to end. */
  function Copies<T>(s: seq<T>, n: nat): seq<T> {
    if n == 0 then [] else Copies(s, n - 1) + s
  }

  lemma ThenAssoc(a: Run, b: Run, c: Run)
    ensures Then(Then(a, b), c) == Then(a, Then(b, c))
  {
    if a.outcome.Pass? && b.outcome.Pass? {
      assert (a.effects + b.effects) + c.effects == a.effects + (b.effects + c.effects);
    }
  }

  /** Once an iteration has raised, further iterations change nothing. */
  lemma {:induction false} RepeatFailSticks(body: Run, m: nat, n: nat)
    requires m <= n
    requires Repeat(body, m).outcome.Fail?
    ensures Repeat(body, n) == Repeat(body, m)
  {
    if m < n {
      RepeatFailSticks(body, m, n - 1);
    }
  }

  /** A body that returns normally, repeated `n` times, yields `n` copies of its
      effects and returns normally. */
  lemma {:induction false} RepeatPassing(body: Run, n: nat)
    requires body.outcome.Pass?
    ensures Repeat(body, n) == Run(Copies(body.effects, n), Pass)
  {
    if n > 0 {
      RepeatPassing(body, n - 1);
    }
  }

  /** A body that raises raises at the first iteration, with its own effects. */
  lemma {:induction false} RepeatFailing(body: Run, n: nat)
    requires body.outcome.Fail? && n > 0
    ensures Repeat(body, n) == body
  {
    RepeatFailSticks(body, 1, n);
  }

  lemma {:induction false} CopiesLength<T>(s: seq<T>, n: nat)
    ensures |Copies(s, n)| == n * |s|
  {
    if n > 0 {
      CopiesLength(s, n - 1);
    }
  }

  /** Number of occurrences of `x` in `s`. */
  function Count<T(==)>(x: T, s: seq<T>): nat {
    if s == [] then 0 else Count(x, s[..|s| - 1]) + (if s[|s| - 1] == x then 1 else 0)
  }

  lemma {:induction false} CountAppend<T>(x: T, a: seq<T>, b: seq<T>)
    ensures Count(x, a + b) == Count(x, a) + Count(x, b)
  {
    if b != [] {
      assert (a + b)[..|a + b| - 1] == a + b[..|b| - 1];
      CountAppend(x, a, b[..|b| - 1]);
    } else {
      assert a + b == a;
    }
  }

  lemma {:induction false} CountCopies<T>(x: T, s: seq<T>, n: nat)
    ensures Count(x, Copies(s, n)) == n * Count(x, s)
  {
    if n > 0 {
      CountCopies(x, s, n - 1);
      CountAppend(x, Copies(s, n - 1), s);
    }
  }

  lemma AppendAssoc<T>(a: seq<T>, b: seq<T>, c: seq<T>)
    ensures (a + b) + c == a + (b + c)
  {
  }

  /** The shared record of effects, appended to in program order. */
  class Log {
    var entries: seq<Effect>

    constructor ()
      ensures entries == []
    {
      entries := [];
    }

    method Append(e: Effect)
      modifies this
      ensures entries == old(entries) + [e]
    {
      entries := entries + [e];
    }

    method Wait(s: real)
      modifies this
      ensures entries == old(entries) + Pause(s).effects
    {
      entries := entries + [Sleep(Seconds(s))];
    }
  }
}
