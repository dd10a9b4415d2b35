/**
 * The fail-soft wrapper every driver operation runs under, and the random
 * letter string used to give messages weight.
 */
module Helpers {
  import opened Wrappers

  /** What calling an operation does: it returns a value or raises an exception. */
  datatype Outcome<+T> = Returned(value: T) | Raised(error: string)

  /**
   * async_try_ignore(fb, fbcall) applied to func: the wrapper runs func; when
   * func raises it runs fbcall on the same arguments (if there is one), and
   * when that raises too, or there is none, it returns fb. The synchronous
   * try_except / try_ignore that the Redis and Kafka drivers use behave the same.
   */
  function TryIgnore<A(!new), T>(fb: T, fbcall: Option<A -> Outcome<T>>, func: A -> Outcome<T>): (wrapper: A -> Outcome<T>)
    ensures forall args :: wrapper(args).Returned?
    ensures forall args :: func(args).Returned? ==> wrapper(args) == func(args)
    ensures forall args :: func(args).Raised? && fbcall.None? ==> wrapper(args) == Returned(fb)
    ensures forall args :: func(args).Raised? && fbcall.Some? && fbcall.value(args).Returned? ==>
      wrapper(args) == fbcall.value(args)
    ensures forall args :: func(args).Raised? && fbcall.Some? && fbcall.value(args).Raised? ==>
      wrapper(args) == Returned(fb)
  {
    (args: A) =>
      match func(args)
      case Returned(v) => Returned(v)
      case Raised(_) =>
        match fbcall
        case None => Returned(fb)
        case Some(call) =>
          match call(args)
          case Returned(w) => Returned(w)
          case Raised(_) => Returned(fb)
  }

  const AsciiLowercase := "abcdefghijklmnopqrstuvwxyz"
  const AsciiUppercase := "ABCDEFGHIJKLMNOPQRSTUVWXYZ"

  /** The 52 ASCII letters, lower case first: "abc...xyzABC...XYZ". */
  const Letters := AsciiLowercase + AsciiUppercase

  predicate IsAsciiLetter(c: char) {
    'a' <= c <= 'z' || 'A' <= c <= 'Z'
  }

  /**
   * rndstr(length): `length` letters, each chosen by the injected chooser
   * `pick` (the random source); a length of zero or less gives "".
   */
  function RndStr(length: int, pick: nat -> int): (s: string)
    ensures |s| == if length > 0 then length else 0
    ensures forall k :: 0 <= k < |s| ==> s[k] in Letters
    ensures forall k :: 0 <= k < |s| ==> IsAsciiLetter(s[k])
  {
    LettersAreAsciiLetters();
    if length <= 0 then "" else seq(length, k requires 0 <= k => Letters[pick(k) % |Letters|])
  }

  lemma LowercaseLetters()
    ensures forall c :: c in AsciiLowercase <==> 'a' <= c <= 'z'
  {
  }

  lemma UppercaseLetters()
    ensures forall c :: c in AsciiUppercase <==> 'A' <= c <= 'Z'
  {
  }

  /** `Letters` holds exactly the 52 ASCII letters. */
  lemma LettersAreAsciiLetters()
    ensures |Letters| == 52
    ensures forall c :: c in Letters ==> IsAsciiLetter(c)
    ensures forall c :: IsAsciiLetter(c) ==> c in Letters
  {
    LowercaseLetters();
    UppercaseLetters();
  }
}
