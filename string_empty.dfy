/** The emptiness helpers on `String` and `String?`. */
module StringEmpty {
  import opened Wrappers

  /** `isNotEmpty`: the negation of `isEmpty`. */
  predicate IsNotEmpty(s: string)
    ensures IsNotEmpty(s) <==> |s| > 0
  {
    !(s == "")
  }

  /** `self?.isEmpty`: nil for nil, otherwise whether the string is empty. */
  function OptionalIsEmpty(o: Option<string>): (empty: Option<bool>)
    ensures empty.Some? <==> o.Some?
    ensures o.Some? ==> (empty.value <==> |o.value| == 0)
  {
    match o
    case None => None
    case Some(s) => Some(s == "")
  }

  /** `isEmptyOrNil`: `self == nil || self?.isEmpty == true`. */
  predicate IsEmptyOrNil(o: Option<string>)
    ensures IsEmptyOrNil(o) <==> o == None || o == Some("")
  {
    o.None? || OptionalIsEmpty(o) == Some(true)
  }

  /** `isNotEmptyAndNil`: `self?.isEmpty == false`. */
  predicate IsNotEmptyAndNil(o: Option<string>)
    ensures IsNotEmptyAndNil(o) <==> o.Some? && |o.value| > 0
  {
    OptionalIsEmpty(o) == Some(false)
  }

  /** Every optional string is either empty-or-nil or present-and-non-empty,
      never both. */
  lemma EmptinessComplement(o: Option<string>)
    ensures IsEmptyOrNil(o) <==> !IsNotEmptyAndNil(o)
  {
  }

  /** On a present string the optional helpers agree with `isNotEmpty`. */
  lemma PresentStringAgrees(s: string)
    ensures IsNotEmptyAndNil(Some(s)) <==> IsNotEmpty(s)
    ensures IsEmptyOrNil(Some(s)) <==> !IsNotEmpty(s)
  {
  }
}
