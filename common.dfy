/** Shared vocabulary of the model: optional values, results carrying the
    ways the two scripts stop early, and the parity rule that every grid
    size in the pipeline obeys. */
module Common {

  datatype Option<T> = None | Some(value: T)

  /** The reasons preprocessing or reconstruction stops before producing
      output. Some are explicit checks with a message and `exit()`, others
      are Python exceptions the scripts do not catch; both end the run. */
  datatype Error =
    | NoImages              // empty file list or empty manifest
    | BadSizeList           // explicit high-resolution size rejected
    | NegativeDimension     // numpy refuses a zeros() shape with a negative entry
    | NoWorkingData         // the working directory is missing
    | MissingManifest       // the manifest file cannot be opened
    | MalformedManifestLine // a manifest line has no second field
    | AmbiguousMeanFile     // more than one mean-fusion file
    | MissingMeanFile       // no mean-fusion file; indexing the empty match list fails
    | ConflictingMethods    // both --ggr and --tik on the command line

  datatype Result<T> = Ok(value: T) | Fail(error: Error)

  predicate IsEven(n: int) {
    n % 2 == 0
  }

  /** An axis length with the parity forcing used throughout: an odd length
      loses one sample, an even one is kept. */
  function DropToEven(n: int): (r: int)
    ensures IsEven(r)
    ensures r <= n && n - r <= 1
    ensures IsEven(n) <==> r == n
  {
    if n % 2 != 0 then n - 1 else n
  }

  /** The number of entries of `s` equal to one. */
  function CountOnes(s: seq<int>): nat
  {
    if s == [] then 0 else (if s[0] == 1 then 1 else 0) + CountOnes(s[1..])
  }

  lemma {:induction false} CountOnesAppend(a: seq<int>, b: seq<int>)
    ensures CountOnes(a + b) == CountOnes(a) + CountOnes(b)
  {
    if a != [] {
      assert (a + b)[1..] == a[1..] + b;
      CountOnesAppend(a[1..], b);
    } else {
      assert a + b == b;
    }
  }

  /** A sequence of `n` copies of `v`. */
  function Fill(n: nat, v: int): (r: seq<int>)
    ensures |r| == n
    ensures forall i :: 0 <= i < n ==> r[i] == v
  {
    seq(n, _ => v)
  }

  lemma {:induction false} CountOnesFill(n: nat, v: int)
    ensures CountOnes(Fill(n, v)) == if v == 1 then n else 0
  {
    if n > 0 {
      assert Fill(n, v)[1..] == Fill(n - 1, v);
      CountOnesFill(n - 1, v);
    }
  }
}
