/** Shared vocabulary of the portfolio model: day numbers, the failure-carrying
    datatypes that stand for the exceptions the Python code raises, and a few
    sequence helpers (filtering, summing) that the query expressions use. */
module Common {

  /** A calendar day, counted in days. `now` is always passed in explicitly. */
  type Date = int

  type StockId = int
  type BucketId = int
  type ProfileId = int

  datatype Option<+T> = None | Some(value: T)

  /** The exceptions the core raises, one constructor per distinct cause. */
  datatype Error =
    | FutureDate                                 // "Date is later than now!"
    | NoQuote                                    // "No quote found"
    | InvalidTicker                              // "Invalid Ticker"
    | Blank(field: string)                       // Django: "This field cannot be blank."
    | TooLong(field: string, limit: nat)         // Django's max_length validator
    | BelowMinimum(message: string)              // a MinValue / MinLength validator's message
    | NotUnique(fields: seq<string>)             // a unique / unique_together constraint
    | NegativeSlice                              // slicing a query set with a negative bound
    | UnknownStock                               // Stock.DoesNotExist
    | NotEnoughMoney                             // "Not enough money available"
    | NoAccounts                                 // IndexError on an empty account list
    | InsufficientResources                      // the rejection the trading tests expect

  datatype Result<+T> = Ok(value: T) | Err(error: Error)

  datatype Outcome = Pass | Fail(error: Error)

  /** The elements of `s` that satisfy `p`, in their original order. */
  function Filter<T>(s: seq<T>, p: T -> bool): (r: seq<T>)
    ensures |r| <= |s|
  {
    if s == [] then []
    else if p(s[0]) then [s[0]] + Filter(s[1..], p)
    else Filter(s[1..], p)
  }

  /** What `Filter` keeps: only elements of `s` that satisfy `p`, every such
      element, and no element more often than `s` holds it. */
  lemma {:induction false} FilterSpec<T>(s: seq<T>, p: T -> bool)
    ensures forall i :: 0 <= i < |Filter(s, p)| ==> Filter(s, p)[i] in s && p(Filter(s, p)[i])
    ensures forall i :: 0 <= i < |s| && p(s[i]) ==> s[i] in Filter(s, p)
    ensures multiset(Filter(s, p)) <= multiset(s)
  {
    FilterKeepsOnly(s, p);
    FilterKeepsAll(s, p);
  }

  lemma {:induction false} FilterKeepsOnly<T>(s: seq<T>, p: T -> bool)
    ensures forall x :: x in Filter(s, p) ==> x in s && p(x)
    ensures multiset(Filter(s, p)) <= multiset(s)
  {
    if s != [] {
      FilterKeepsOnly(s[1..], p);
      assert s == [s[0]] + s[1..];
      assert multiset(s) == multiset{s[0]} + multiset(s[1..]);
      if p(s[0]) {
        assert multiset([s[0]] + Filter(s[1..], p)) == multiset{s[0]} + multiset(Filter(s[1..], p));
      }
    }
  }

  lemma {:induction false} FilterKeepsAll<T>(s: seq<T>, p: T -> bool)
    ensures forall x :: x in s && p(x) ==> x in Filter(s, p)
  {
    if s != [] {
      FilterKeepsAll(s[1..], p);
      assert s == [s[0]] + s[1..];
    }
  }

  lemma {:induction false} FilterAppend<T>(a: seq<T>, b: seq<T>, p: T -> bool)
    ensures Filter(a + b, p) == Filter(a, p) + Filter(b, p)
  {
    if a == [] {
      assert a + b == b;
    } else {
      assert (a + b)[1..] == a[1..] + b;
      FilterAppend(a[1..], b, p);
    }
  }
}
