/** The FluentValidation building blocks the validators use: a single rule, the
    string emptiness test of `NotEmpty()`, and `RuleForEach`, which validates every
    element of a collection and reports its failures under `Items[i]`. Every rule of a
    validator is evaluated and all failures are collected, in declaration order. */
module ValidationRules {
  import opened SalesCommon

  /** `char.IsWhiteSpace`: the Unicode space, line and paragraph separators and the
      control characters U+0009..U+000D, U+0085. */
  predicate IsWhiteSpace(c: char) {
    || ('\U{9}' <= c <= '\U{D}')
    || c == ' ' || c == '\U{85}' || c == '\U{A0}' || c == '\U{1680}'
    || ('\U{2000}' <= c <= '\U{200A}')
    || c == '\U{2028}' || c == '\U{2029}' || c == '\U{202F}' || c == '\U{205F}' || c == '\U{3000}'
  }

  /** `string.IsNullOrWhiteSpace`: what `NotEmpty()` rejects for a string. */
  predicate IsBlank(s: string) {
    forall i :: 0 <= i < |s| ==> IsWhiteSpace(s[i])
  }

  /** A required text of bounded length: `NotEmpty().MaximumLength(max)`. */
  predicate TextOk(s: string, max: nat) {
    !IsBlank(s) && |s| <= max
  }

  /** One rule: no failure when `holds`, otherwise one failure on `property`. */
  function Rule(property: Property, holds: bool, message: string): seq<ValidationError> {
    if holds then [] else [ValidationError(property, message)]
  }

  /** `RuleFor(x => x.P).NotEmpty().WithMessage(m1).MaximumLength(max).WithMessage(m2)`:
      with the default cascade mode both checks run, so a long blank text fails twice. */
  function RequiredText(name: string, s: string, max: nat, required: string, tooLong: string)
    : (errs: seq<ValidationError>)
    ensures errs == [] <==> TextOk(s, max)
    ensures IsBlank(s) ==> ValidationError(Named(name), required) in errs
    ensures |s| > max ==> ValidationError(Named(name), tooLong) in errs
  {
    Rule(Named(name), !IsBlank(s), required) + Rule(Named(name), |s| <= max, tooLong)
  }

  /** Re-roots the failures of element `index` under `collection[index]`. */
  function Nest(collection: string, index: nat, errs: seq<ValidationError>): (nested: seq<ValidationError>)
    ensures |nested| == |errs|
    ensures forall k :: 0 <= k < |errs| ==>
      nested[k] == ValidationError(Element(collection, index, errs[k].property), errs[k].message)
  {
    if errs == [] then []
    else
      var first := ValidationError(Element(collection, index, errs[0].property), errs[0].message);
      [first] + Nest(collection, index, errs[1..])
  }

  /** `RuleForEach(x => x.<collection>).SetValidator(v)` over the elements from
      position `offset` on: the failures of each element in turn. The result is empty
      exactly when every element passes, and every element's failures appear in it. */
  function ForEachFrom<T>(collection: string, xs: seq<T>, validate: T -> seq<ValidationError>, offset: nat)
    : (errs: seq<ValidationError>)
    ensures errs == [] <==> forall i :: 0 <= i < |xs| ==> validate(xs[i]) == []
    ensures forall i, k :: 0 <= i < |xs| && 0 <= k < |validate(xs[i])| ==>
      ValidationError(Element(collection, offset + i, validate(xs[i])[k].property), validate(xs[i])[k].message) in errs
    decreases |xs|
  {
    if xs == [] then []
    else
      var head := Nest(collection, offset, validate(xs[0]));
      var rest := ForEachFrom(collection, xs[1..], validate, offset + 1);
      assert forall i :: 1 <= i < |xs| ==> xs[i] == xs[1..][i - 1];
      head + rest
  }

  function ForEach<T>(collection: string, xs: seq<T>, validate: T -> seq<ValidationError>): seq<ValidationError> {
    ForEachFrom(collection, xs, validate, 0)
  }

  /** Collections whose elements fail in the same way, position by position, produce the
      same failures. */
  lemma {:induction false} ForEachCongruent<T>(collection: string, xs: seq<T>, ys: seq<T>,
                                               validate: T -> seq<ValidationError>, offset: nat)
    requires |xs| == |ys|
    requires forall i :: 0 <= i < |xs| ==> validate(xs[i]) == validate(ys[i])
    ensures ForEachFrom(collection, xs, validate, offset) == ForEachFrom(collection, ys, validate, offset)
    decreases |xs|
  {
    if xs != [] {
      assert forall i :: 0 <= i < |xs| - 1 ==> xs[1..][i] == xs[i + 1] && ys[1..][i] == ys[i + 1];
      ForEachCongruent(collection, xs[1..], ys[1..], validate, offset + 1);
    }
  }
}
