/** Errors, panic payloads, the panic normaliser `r` and the error sinks
    (error.go, with the recording sink of error_test.go). */
module Errors {
  import opened Decimal

  datatype Option<+T> = None | Some(value: T)

  /** A Go `error` value. An `Existing` error is one the program already
      holds (built with fmt.Errorf, say); its `id` stands for its pointer
      identity, so two of them compare equal only when they are the same
      value. A `Created` error is one the normaliser builds itself. */
  datatype Error =
    | Existing(id: nat, text: string)
    | Created(text: string)
  {
    /** What `Error()` returns. */
    function Message(): string {
      text
    }
  }

  /** The value a `recover()` call hands back: nil when nothing is unwinding,
      otherwise the value given to `panic`. The kinds are those the
      normaliser tells apart; integers stand for every payload it renders
      with `%v`, and `Other` holds the rendering of any other value. */
  datatype Payload =
    | Nil
    | Text(s: string)
    | ErrorValue(err: Error)
    | Int(n: int)
    | Other(rendered: string)

  const UnknownPanicPrefix: string := "Unknown panic, received: "

  /** The normaliser `r`: no payload gives no error, an error payload is
      returned as it is, a string becomes a new error with that message, and
      anything else a new error naming the value. */
  function Recover(p: Payload): (err: Option<Error>)
    ensures err.None? <==> p.Nil?
    ensures p.ErrorValue? ==> err == Some(p.err)
    ensures p.Text? ==> err.Some? && err.value.Created? && err.value.Message() == p.s
    ensures p.Int? ==> err.Some? && err.value.Created? &&
                       err.value.Message() == UnknownPanicPrefix + IntToDecimal(p.n)
    ensures p.Other? ==> err.Some? && err.value.Created? &&
                         err.value.Message() == UnknownPanicPrefix + p.rendered
  {
    match p
    case Nil => None
    case Text(s) => Some(Created(s))
    case ErrorValue(e) => Some(e)
    case Int(n) => Some(Created(UnknownPanicPrefix + IntToDecimal(n)))
    case Other(v) => Some(Created(UnknownPanicPrefix + v))
  }

  /** The message made for an integer payload names that integer: reading the
      digits after the prefix gives the payload back. */
  lemma RecoveredIntNamesPayload(n: int)
    ensures Recover(Int(n)).Some?
    ensures var m := Recover(Int(n)).value.Message();
            m[..|UnknownPanicPrefix|] == UnknownPanicPrefix &&
            |m| > |UnknownPanicPrefix| &&
            ParseInt(m[|UnknownPanicPrefix|..]) == n
  {
    var m := Recover(Int(n)).value.Message();
    assert m[|UnknownPanicPrefix|..] == IntToDecimal(n);
    ParseIntOfDecimal(n);
  }

  /** Distinct integer payloads give distinct messages. */
  lemma RecoverIntInjective(n: int, k: int)
    requires Recover(Int(n)) == Recover(Int(k))
    ensures n == k
  {
    RecoveredIntNamesPayload(n);
    RecoveredIntNamesPayload(k);
  }

  /** The normaliser never hands out an error the program already held,
      unless that error was itself the payload. */
  lemma RecoverKeepsIdentity(p: Payload, id: nat, text: string)
    requires Recover(p) == Some(Existing(id, text))
    ensures p == ErrorValue(Existing(id, text))
  {
  }

  /** The case the tests pin down: panicking with 123. */
  lemma RecoverOneTwoThree()
    ensures Recover(Int(123)).Some?
    ensures Recover(Int(123)).value.Message() == "Unknown panic, received: 123"
  {
  }

  /** An `errorHandler`. A sink that does not record stands for
      `noopErrorHandler`; a recording one for the test double that keeps
      every error it is handed. `errors` is what the sink has recorded. */
  class ErrorSink {
    const recording: bool
    var errors: seq<Error>

    ghost predicate Valid()
      reads this
    {
      !recording ==> errors == []
    }

    constructor Noop()
      ensures Valid() && !recording && errors == []
    {
      recording := false;
      errors := [];
    }

    constructor Recorder()
      ensures Valid() && recording && errors == []
    {
      recording := true;
      errors := [];
    }

    /** `Handle`: the no-op sink changes nothing; the recording sink appends. */
    method Handle(err: Error)
      requires Valid()
      modifies this
      ensures Valid()
      ensures !recording ==> errors == old(errors)
      ensures recording ==> errors == old(errors) + [err]
    {
      if recording {
        errors := errors + [err];
      }
    }

    /** `Last`: the most recently handled error, or nil when there is none. */
    method Last() returns (err: Option<Error>)
      ensures err.None? <==> errors == []
      ensures err.Some? ==> err.value == errors[|errors| - 1]
    {
      if |errors| > 0 {
        err := Some(errors[|errors| - 1]);
      } else {
        err := None;
      }
    }
  }
}
