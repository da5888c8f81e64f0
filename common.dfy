/** Shared value types: optional values, the exceptions the Python code raises
    (modelled as a failure value), and the small string helpers the agents use
    to compare vendor names. */
module Common {

  datatype Option<+T> = None | Some(value: T)

  /** The Python exceptions that the modelled code can raise. */
  datatype PyError =
    | UnsupportedVendor                 // ValueError("Unsupported vendor"), without the name
    | KeyError(key: string)             // dict indexing with a missing key
    | VendorNotSelected(vendor: string, available: seq<string>)
                                        // KeyError("Vendor '<vendor>' not found in
                                        // selected_models. Available vendors: <available>")
    | StopIteration                     // next() over a generator that yields nothing
    | EmptyMaxArg                       // ValueError from max() of an empty sequence
    | NoJsonObject                      // "No JSON object found in response."
    | IncompleteJson                    // "Incomplete JSON object in response."

  /** A computation that either returns a value or raises. */
  datatype Result<+T> = Success(value: T) | Failure(error: PyError) {
    predicate IsFailure() { Failure? }

    function PropagateFailure<U>(): Result<U>
      requires Failure?
    {
      Failure(error)
    }

    function Extract(): T
      requires Success?
    {
      value
    }
  }

  function OptionToResult<T>(o: Option<T>, e: PyError): (r: Result<T>)
    ensures r.Success? <==> o.Some?
    ensures r.Success? ==> r.value == o.value
    ensures r.Failure? ==> r.error == e
  {
    match o
    case Some(v) => Success(v)
    case None => Failure(e)
  }

  /** `a` is `b` with some elements deleted, the rest kept in order. */
  ghost predicate IsSubsequence<T>(a: seq<T>, b: seq<T>)
    decreases |b|
  {
    a == [] ||
    (b != [] && ((a[0] == b[0] && IsSubsequence(a[1..], b[1..])) || IsSubsequence(a, b[1..])))
  }

  lemma {:induction false} SubsequencePrepend<T>(a: seq<T>, b: seq<T>, x: T)
    requires IsSubsequence(a, b)
    ensures IsSubsequence(a, [x] + b)
  {
    assert ([x] + b)[1..] == b;
  }

  lemma {:induction false} SubsequenceRefl<T>(a: seq<T>)
    ensures IsSubsequence(a, a)
    decreases |a|
  {
    if a != [] {
      SubsequenceRefl(a[1..]);
    }
  }

  /** A subsequence of a suffix is a subsequence of the whole. */
  lemma {:induction false} SubsequenceOfSuffix<T>(a: seq<T>, b: seq<T>, k: nat)
    requires k <= |b| && IsSubsequence(a, b[k..])
    ensures IsSubsequence(a, b)
    decreases k
  {
    if k > 0 {
      assert b[k - 1..] == [b[k - 1]] + b[k..];
      SubsequencePrepend(a, b[k..], b[k - 1]);
      SubsequenceOfSuffix(a, b, k - 1);
    }
  }

  lemma {:induction false} SubsequenceTrans<T>(a: seq<T>, b: seq<T>, c: seq<T>)
    requires IsSubsequence(a, b) && IsSubsequence(b, c)
    ensures IsSubsequence(a, c)
    decreases |c|
  {
    if a != [] {
      if b[0] == c[0] && IsSubsequence(b[1..], c[1..]) {
        if a[0] == b[0] && IsSubsequence(a[1..], b[1..]) {
          SubsequenceTrans(a[1..], b[1..], c[1..]);
        } else {
          SubsequenceTrans(a, b[1..], c[1..]);
        }
      } else {
        SubsequenceTrans(a, b, c[1..]);
      }
    }
  }

  /** `str.lower()` restricted to ASCII letters. */
  function LowerChar(c: char): (l: char)
    ensures 'A' <= c <= 'Z' ==> l as int == c as int + 32
    ensures !('A' <= c <= 'Z') ==> l == c
  {
    if 'A' <= c <= 'Z' then (c as int + 32) as char else c
  }

  function Lower(s: string): (r: string)
    ensures |r| == |s|
    ensures forall i :: 0 <= i < |s| ==> r[i] == LowerChar(s[i])
  {
    if s == [] then [] else [LowerChar(s[0])] + Lower(s[1..])
  }

  /** `s.replace(c, "")` for a one-character pattern. */
  function RemoveChar(s: string, c: char): (r: string)
    ensures IsSubsequence(r, s)
    ensures forall x :: multiset(r)[x] == if x == c then 0 else multiset(s)[x]
    ensures forall x :: x in r <==> x in s && x != c
    ensures |r| <= |s|
  {
    if s == [] then []
    else
      var rest := RemoveChar(s[1..], c);
      assert s == [s[0]] + s[1..];
      if s[0] == c then
        SubsequenceOfSuffix(rest, s, 1);
        rest
      else
        assert ([s[0]] + rest)[1..] == rest;
        [s[0]] + rest
  }

  /** The key under which an agent looks a vendor up in `selected_models`:
      `vendor.lower().replace("-", "").replace(" ", "")`. */
  function NormalizeVendor(vendor: string): (key: string)
    ensures IsSubsequence(key, Lower(vendor))
    ensures forall x :: multiset(key)[x] == if x == '-' || x == ' ' then 0 else multiset(Lower(vendor))[x]
    ensures '-' !in key && ' ' !in key
  {
    var once := RemoveChar(Lower(vendor), '-');
    SubsequenceTrans(RemoveChar(once, ' '), once, Lower(vendor));
    RemoveChar(once, ' ')
  }

  lemma LowerCisco()
    ensures Lower("Cisco") == "cisco"
  {
    var r := Lower("Cisco");
    assert r[0] == 'c' && r[1] == 'i' && r[2] == 's' && r[3] == 'c' && r[4] == 'o';
  }

  lemma LowerTpLink()
    ensures Lower("TP-Link") == "tp-link"
  {
    var r := Lower("TP-Link");
    assert r[0] == 't' && r[1] == 'p' && r[2] == '-' && r[3] == 'l';
    assert r[4] == 'i' && r[5] == 'n' && r[6] == 'k';
  }

  /** The two vendor names the agents pass in normalise to the keys that the
      architecture step writes into `selected_models`. */
  lemma NormalizeCisco()
    ensures NormalizeVendor("Cisco") == "cisco"
  {
    calc {
      NormalizeVendor("Cisco");
      { LowerCisco(); }
      RemoveChar(RemoveChar("cisco", '-'), ' ');
      { assert RemoveChar("cisco", '-') == "cisco"; }
      RemoveChar("cisco", ' ');
      "cisco";
    }
  }

  lemma NormalizeTpLink()
    ensures NormalizeVendor("TP-Link") == "tplink"
  {
    calc {
      NormalizeVendor("TP-Link");
      { LowerTpLink(); }
      RemoveChar(RemoveChar("tp-link", '-'), ' ');
      { assert RemoveChar("tp-link", '-') == "tplink"; }
      RemoveChar("tplink", ' ');
      "tplink";
    }
  }
}
