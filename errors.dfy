/** The error value shared by every error module of the crate: a kind, and an
    optional payload that carries the underlying error. */
module ErrorCore {
  import opened Wrappers

  /** An underlying error: the name of its type, its description and the error that caused it. */
  datatype Payload = Payload(typeName: string, description: string, cause: Option<Payload>)

  /** An error of kind `K` with an optional payload. */
  datatype Error<K> = Error(kind: K, payload: Option<Payload>)

  /** `From<ErrorKind> for Error`: an error without payload. */
  function FromKind<K>(kind: K): (e: Error<K>)
    ensures e.kind == kind && e.payload.None?
  {
    Error(kind, None)
  }

  /** `Error::new`: an error carrying `payload`. */
  function New<K>(kind: K, payload: Payload): (e: Error<K>)
    ensures e.kind == kind && e.payload == Some(payload)
  {
    Error(kind, Some(payload))
  }

  /** The payload a message string becomes when an error is made from it
      (`From<&str>` for a boxed error): its description is the message. */
  function Message(text: string): (p: Payload)
    ensures p.description == text && p.cause.None?
  {
    Payload("String", text, None)
  }

  /** `get_ref`: the payload, if any. */
  function GetRef<K>(e: Error<K>): Option<Payload>
  {
    e.payload
  }

  /** `kind` */
  function Kind<K>(e: Error<K>): K
  {
    e.kind
  }

  /** `Display`: the message of the kind. */
  function Display<K>(e: Error<K>, message: K -> string): string
  {
    message(e.kind)
  }

  /** `description`: the payload's description when there is a payload, else the message of the kind. */
  function Description<K>(e: Error<K>, message: K -> string): string
  {
    match e.payload
    case Some(p) => p.description
    case None => message(e.kind)
  }

  /** `cause`: the payload's cause; an error without payload has none. */
  function Cause<K>(e: Error<K>): Option<Payload>
  {
    match e.payload
    case Some(p) => p.cause
    case None => None
  }

  /** An error made from a bare kind reports that kind, has no payload and no
      cause, and describes itself exactly as it displays. */
  lemma FromKindFacts<K>(kind: K, message: K -> string)
    ensures Kind(FromKind(kind)) == kind && GetRef(FromKind(kind)).None?
    ensures Cause(FromKind(kind)).None?
    ensures Description(FromKind(kind), message) == Display(FromKind(kind), message) == message(kind)
  {
  }

  /** An error made with a payload reports its kind, hands the payload back, and
      takes its description and cause from the payload. */
  lemma NewFacts<K>(kind: K, payload: Payload, message: K -> string)
    ensures Kind(New(kind, payload)) == kind && GetRef(New(kind, payload)) == Some(payload)
    ensures Description(New(kind, payload), message) == payload.description
    ensures Cause(New(kind, payload)) == payload.cause
    ensures Display(New(kind, payload), message) == message(kind)
  {
  }

  /** Whether every character of `s` is a decimal digit. */
  predicate AllDigits(s: string)
  {
    forall i :: 0 <= i < |s| ==> '0' <= s[i] <= '9'
  }

  /** The decimal digit for `d`. */
  function Digit(d: nat): (c: char)
    requires d < 10
    ensures '0' <= c <= '9' && c as int - '0' as int == d
  {
    ('0' as int + d) as char
  }

  /** How `format!` renders a `usize` with `{}`: its decimal digits, most
      significant first, without leading zeros. */
  function Decimal(n: nat): (s: string)
    ensures |s| > 0 && AllDigits(s)
    ensures |s| > 1 ==> s[0] != '0'
    decreases n
  {
    if n < 10 then [Digit(n)] else Decimal(n / 10) + [Digit(n % 10)]
  }

  /** The number a string of decimal digits denotes. */
  function DigitsValue(s: string): nat
    requires AllDigits(s)
  {
    if |s| == 0 then 0 else DigitsValue(s[..|s| - 1]) * 10 + (s[|s| - 1] as int - '0' as int)
  }

  /** The length of the run of decimal digits that `s` starts with. */
  function DigitRun(s: string): (n: nat)
    ensures n <= |s|
  {
    if |s| == 0 || !('0' <= s[0] <= '9') then 0 else 1 + DigitRun(s[1..])
  }

  /** Digits followed by a non-digit: the run ends exactly after the digits,
      so a rendered count can be cut back out of the text around it. */
  lemma {:induction false} DigitRunOf(digits: string, rest: string)
    requires AllDigits(digits) && |rest| > 0 && !('0' <= rest[0] <= '9')
    ensures DigitRun(digits + rest) == |digits|
  {
    if |digits| == 0 {
      assert digits + rest == rest;
    } else {
      assert (digits + rest)[1..] == digits[1..] + rest;
      DigitRunOf(digits[1..], rest);
    }
  }

  /** Two runs of digits, each followed by a non-digit, that spell the same
      text are the same run followed by the same rest. */
  lemma CutDigits(a: string, b: string, rest1: string, rest2: string)
    requires AllDigits(a) && |rest1| > 0 && !('0' <= rest1[0] <= '9')
    requires AllDigits(b) && |rest2| > 0 && !('0' <= rest2[0] <= '9')
    requires a + rest1 == b + rest2
    ensures a == b && rest1 == rest2
  {
    DigitRunOf(a, rest1);
    DigitRunOf(b, rest2);
    assert a == (a + rest1)[..|a|] == (b + rest2)[..|b|] == b;
    assert rest1 == (a + rest1)[|a|..] == (b + rest2)[|b|..] == rest2;
  }

  /** A fixed prefix, a run of digits, a fixed separator that starts with a
      non-digit, and a rest: equal texts of this form have equal runs and
      equal rests. */
  lemma CutAround(prefix: string, separator: string, a: string, b: string, x: string, y: string)
    requires AllDigits(a) && AllDigits(b) && |separator| > 0 && !('0' <= separator[0] <= '9')
    requires prefix + a + separator + x == prefix + b + separator + y
    ensures a == b && x == y
  {
    var t1, t2 := a + (separator + x), b + (separator + y);
    assert prefix + a + separator + x == prefix + t1;
    assert prefix + b + separator + y == prefix + t2;
    assert t1 == (prefix + t1)[|prefix|..];
    assert t2 == (prefix + t2)[|prefix|..];
    CutDigits(a, b, separator + x, separator + y);
    assert x == (separator + x)[|separator|..];
    assert y == (separator + y)[|separator|..];
  }

  /** A text made of a fixed prefix, a count, a fixed separator that starts
      with a non-digit, and a second count gives both counts back. */
  lemma TwoCountsInjective(prefix: string, separator: string, c1: nat, l1: nat, c2: nat, l2: nat)
    requires |separator| > 0 && !('0' <= separator[0] <= '9')
    requires prefix + Decimal(c1) + separator + Decimal(l1) == prefix + Decimal(c2) + separator + Decimal(l2)
    ensures c1 == c2 && l1 == l2
  {
    CutAround(prefix, separator, Decimal(c1), Decimal(c2), Decimal(l1), Decimal(l2));
    DecimalRoundTrip(c1);
    DecimalRoundTrip(c2);
    DecimalRoundTrip(l1);
    DecimalRoundTrip(l2);
  }

  /** Rendering a count and reading the digits back gives the count: the
      rendering loses nothing. */
  lemma {:induction false} DecimalRoundTrip(n: nat)
    ensures DigitsValue(Decimal(n)) == n
    decreases n
  {
    if n >= 10 {
      var s := Decimal(n);
      assert s[..|s| - 1] == Decimal(n / 10);
      DecimalRoundTrip(n / 10);
    }
  }
}

/** The error kinds of `src/error.rs`. */
module SrcError {
  import opened ErrorCore
  import opened Wrappers

  datatype ErrorKind =
    | Framework(name: string)
    | BitMapCapacityExceeded
    | InvalidReshapedTensorSize
    | UninitializedMemory
    | AllocatedMemoryNotFoundForDevice
    | MemorySynchronizationFailed
    | NoAvailableSynchronizationRouteFound
    | MemoryAllocationFailed
    | Other

  /** `as_str`: the message of each kind. */
  function AsStr(kind: ErrorKind): string
  {
    match kind
    case Framework(name) => name
    case BitMapCapacityExceeded => "the maximum number of backing memories has been reached"
    case InvalidReshapedTensorSize => "size of the provided shape is not equal to the size of the current shape"
    case UninitializedMemory => "uninitialized memory"
    case AllocatedMemoryNotFoundForDevice => "memory allocation was not found for the provided device"
    case MemorySynchronizationFailed => "memory synchronization failed"
    case NoAvailableSynchronizationRouteFound => "no available memory synchronization route"
    case MemoryAllocationFailed => "memory allocation failed"
    case Other => "other error"
  }

  /** A framework error shows the framework's name. */
  lemma FrameworkMessage(name: string)
    ensures AsStr(Framework(name)) == name
  {
  }

  /** An `Other` error made with a payload hands that payload back, with its
      type and its description "abc". */
  lemma PayloadIsHandedBack()
    ensures var err := New(Other, Payload("TestError", "abc", None));
      GetRef(err).Some? && GetRef(err).value.typeName == "TestError" &&
      GetRef(err).value.description == "abc" && Description(err, AsStr) == "abc"
  {
  }
}

/** The error kinds of `src2/error.rs`: those of `src/error.rs` plus `IncompatibleShape`. */
module Src2Error {
  import opened ErrorCore
  import opened Wrappers

  datatype ErrorKind =
    | Framework(name: string)
    | BitMapCapacityExceeded
    | IncompatibleShape
    | InvalidReshapedTensorSize
    | UninitializedMemory
    | AllocatedMemoryNotFoundForDevice
    | MemorySynchronizationFailed
    | NoAvailableSynchronizationRouteFound
    | MemoryAllocationFailed
    | Other

  function AsStr(kind: ErrorKind): string
  {
    match kind
    case Framework(name) => name
    case BitMapCapacityExceeded => "the maximum number of backing memories has been reached"
    case IncompatibleShape => "the tensor shape is incompatible with the shape of the data"
    case InvalidReshapedTensorSize => "size of the provided shape is not equal to the size of the current shape"
    case UninitializedMemory => "uninitialized memory"
    case AllocatedMemoryNotFoundForDevice => "memory allocation was not found for the provided device"
    case MemorySynchronizationFailed => "memory synchronization failed"
    case NoAvailableSynchronizationRouteFound => "no available memory synchronization route"
    case MemoryAllocationFailed => "memory allocation failed"
    case Other => "other error"
  }

  /** A framework error shows the framework's name. */
  lemma FrameworkMessage(name: string)
    ensures AsStr(Framework(name)) == name
  {
  }

  lemma PayloadIsHandedBack()
    ensures var err := New(Other, Payload("TestError", "abc", None));
      GetRef(err) == Some(Payload("TestError", "abc", None)) && Description(err, AsStr) == "abc" &&
      Display(err, AsStr) == "other error"
  {
  }
}

/** The error kinds of `src/error/kind.rs`, used with the error value of `src/error/mod.rs`. */
module ContextError {
  import opened ErrorCore
  import opened Wrappers

  datatype ErrorKind =
    | Framework(name: string)
    | BitMapCapacityExceeded
    | InvalidReshapedTensorSize
    | UninitializedMemory
    | AllocatedMemoryNotFoundForContext
    | MemorySynchronizationFailed
    | NoAvailableSynchronizationRouteFound
    | MemoryAllocationFailed
    | Other

  function AsStr(kind: ErrorKind): string
  {
    match kind
    case Framework(name) => name
    case BitMapCapacityExceeded => "the maximum number of backing memories has been reached"
    case InvalidReshapedTensorSize => "size of the provided shape is not equal to the size of the current shape"
    case UninitializedMemory => "uninitialized memory"
    case AllocatedMemoryNotFoundForContext => "memory allocation was not found for the provided context"
    case MemorySynchronizationFailed => "memory synchronization failed"
    case NoAvailableSynchronizationRouteFound => "no available memory synchronization route"
    case MemoryAllocationFailed => "memory allocation failed"
    case Other => "other error"
  }

  /** A framework error shows the framework's name. */
  lemma FrameworkMessage(name: string)
    ensures AsStr(Framework(name)) == name
  {
  }

  lemma PayloadIsHandedBack()
    ensures var err := New(Other, Payload("TestError", "abc", None));
      GetRef(err).Some? && GetRef(err).value.typeName == "TestError" &&
      Description(err, AsStr) == "abc" && Cause(err).None?
  {
  }
}
