/** Two list helpers of the engine (pkg/engine/utils.go: evaluateList,
    invertedElement). */
module Lists {

  /** A decoded JSON value, as a context query returns it. */
  datatype Value =
    | Null
    | Boolean(b: bool)
    | Number(n: int)
    | Str(s: string)
    | Array(items: seq<Value>)
    | Object(fields: map<string, Value>)

  datatype Result<T, E> = Success(value: T) | Failure(error: E)

  /** evaluateList: the query's result as a list. A query error is passed
      on, a list is returned as it is, and any other value (null included)
      becomes a one-element list. `query` stands for the context's Query. */
  function EvaluateList(jmesPath: string, query: string -> Result<Value, string>): (r: Result<seq<Value>, string>)
    ensures query(jmesPath).Failure? <==> r.Failure?
    ensures r.Failure? ==> r.error == query(jmesPath).error
  {
    match query(jmesPath)
    case Failure(err) => Failure(err)
    case Success(v) =>
      match v
      case Array(items) => Success(items)
      case _ => Success([v])
  }

  /** The list from evaluateList determines the query's value: either it is
      the list itself, or the list's single element, which is then not a list. */
  lemma EvaluateListRecoversValue(jmesPath: string, query: string -> Result<Value, string>)
    requires query(jmesPath).Success?
    ensures var l := EvaluateList(jmesPath, query).value;
      var v := query(jmesPath).value;
      && (v.Array? <==> v == Array(l))
      && (!v.Array? <==> (l == [v] && !l[0].Array?))
  {
  }

  /** The elements of `s` in reverse order, built from the back. */
  function Reversed<T>(s: seq<T>): (r: seq<T>)
    ensures |r| == |s|
    decreases |s|
  {
    if |s| == 0 then [] else [s[|s| - 1]] + Reversed(s[..|s| - 1])
  }

  /** Position i of the reversal holds position |s|-1-i of the original. */
  lemma {:induction false} ReversedAt<T>(s: seq<T>, i: nat)
    requires i < |s|
    ensures Reversed(s)[i] == s[|s| - 1 - i]
    decreases |s|
  {
    if i > 0 {
      ReversedAt(s[..|s| - 1], i - 1);
    }
  }

  /** Reversing twice restores the original. */
  lemma ReversedTwice<T>(s: seq<T>)
    ensures Reversed(Reversed(s)) == s
  {
    forall i | 0 <= i < |s| ensures Reversed(Reversed(s))[i] == s[i] {
      ReversedAt(Reversed(s), i);
      ReversedAt(s, |s| - 1 - i);
    }
  }

  /** Reversal keeps every element and its number of occurrences. */
  lemma {:induction false} ReversedPermutes<T>(s: seq<T>)
    ensures multiset(Reversed(s)) == multiset(s)
    decreases |s|
  {
    if |s| > 0 {
      ReversedPermutes(s[..|s| - 1]);
      assert s == s[..|s| - 1] + [s[|s| - 1]];
    }
  }

  /** invertedElement: swaps elements pairwise from both ends towards the
      middle, reversing the array in place. */
  method InvertedElement<T>(elements: array<T>)
    modifies elements
    ensures elements[..] == Reversed(old(elements[..]))
  {
    ghost var original := elements[..];
    if elements.Length == 0 {
      return;
    }
    var i, j := 0, elements.Length - 1;
    while i < j
      invariant 0 <= i <= elements.Length
      invariant j == elements.Length - 1 - i
      invariant forall k :: 0 <= k < i ==> elements[k] == original[elements.Length - 1 - k]
      invariant forall k :: j < k < elements.Length ==> elements[k] == original[elements.Length - 1 - k]
      invariant forall k :: i <= k <= j ==> elements[k] == original[k]
    {
      elements[i], elements[j] := elements[j], elements[i];
      i, j := i + 1, j - 1;
    }
    forall k | 0 <= k < elements.Length ensures elements[k] == Reversed(original)[k] {
      ReversedAt(original, k);
    }
  }
}
