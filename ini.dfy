/** What the configuration reader sees of an INI file once the INI library has
    parsed it: sections mapping keys to raw strings. `has` is membership and
    `get` is lookup. Repeatable keys are spelled `PREFIX[i]` with `i` in
    decimal, and a run of them ends at the first index that is missing. */
module Ini {
  import opened Cxx

  type Section = map<string, string>
  type Ini = map<string, Section>

  /** The key `PREFIX[i]`, built as `PREFIX + "[" + std::to_string(i) + "]"`. */
  function Key(prefix: string, i: nat): string {
    prefix + "[" + ToString(i) + "]"
  }

  lemma KeyInjective(prefix: string, i: nat, j: nat)
    ensures Key(prefix, i) == Key(prefix, j) ==> i == j
  {
    if Key(prefix, i) == Key(prefix, j) {
      var a, b := ToString(i), ToString(j);
      var ka, kb := Key(prefix, i), Key(prefix, j);
      assert ka[|prefix| + 1..|ka| - 1] == a;
      assert kb[|prefix| + 1..|kb| - 1] == b;
      ToStringInjective(i, j);
    }
  }

  ghost function KeysBelow(prefix: string, n: nat): set<string> {
    set i | 0 <= i < n :: Key(prefix, i)
  }

  lemma {:induction false} KeysBelowCount(prefix: string, n: nat)
    ensures |KeysBelow(prefix, n)| == n
  {
    if n > 0 {
      var below, k := KeysBelow(prefix, n - 1), Key(prefix, n - 1);
      KeysBelowCount(prefix, n - 1);
      forall i | 0 <= i < n - 1
        ensures Key(prefix, i) != k
      {
        KeyInjective(prefix, i, n - 1);
      }
      assert k !in below;
      assert KeysBelow(prefix, n) == below + {k};
      assert |below + {k}| == |below| + 1;
    }
  }

  /** A section holding `PREFIX[0]` .. `PREFIX[n-1]` has at least n keys, so a
      loop that walks consecutive indices of a finite section ends. */
  lemma PresentKeysBound(sec: Section, prefix: string, n: nat)
    requires forall i :: 0 <= i < n ==> Key(prefix, i) in sec
    ensures n <= |sec.Keys|
  {
    var below := KeysBelow(prefix, n);
    KeysBelowCount(prefix, n);
    assert below <= sec.Keys;
    assert sec.Keys == below + (sec.Keys - below);
  }

  /** The values of `PREFIX[i]`, `PREFIX[i+1]`, ... up to the first missing index. */
  function RunFrom(sec: Section, prefix: string, i: nat): (r: seq<string>)
    requires forall j :: 0 <= j < i ==> Key(prefix, j) in sec
    ensures forall j :: i <= j < i + |r| ==> Key(prefix, j) in sec && r[j - i] == sec[Key(prefix, j)]
    ensures Key(prefix, i + |r|) !in sec
    decreases |sec.Keys| - i
  {
    if Key(prefix, i) in sec then
      PresentKeysBound(sec, prefix, i + 1);
      [sec[Key(prefix, i)]] + RunFrom(sec, prefix, i + 1)
    else
      []
  }

  /** The values of `PREFIX[0]`, `PREFIX[1]`, ... up to the first missing index. */
  function Run(sec: Section, prefix: string): (r: seq<string>)
    ensures forall j :: 0 <= j < |r| ==> Key(prefix, j) in sec && r[j] == sec[Key(prefix, j)]
    ensures Key(prefix, |r|) !in sec
  {
    RunFrom(sec, prefix, 0)
  }

  /** A run is as long as the first missing index, whatever keys follow the gap:
      `PREFIX[0]` and `PREFIX[2]` without `PREFIX[1]` give one value. */
  lemma RunEndsAtFirstGap(sec: Section, prefix: string, k: nat)
    requires forall j :: 0 <= j < k ==> Key(prefix, j) in sec
    requires Key(prefix, k) !in sec
    ensures |Run(sec, prefix)| == k
    ensures Run(sec, prefix) == seq(k, j requires 0 <= j < k => sec[Key(prefix, j)])
  {
  }
}
