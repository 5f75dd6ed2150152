/**
 * utils.py: the `add_prefix` template filter, which prefixes a single string or every string
 * of a list.
 */
module Utils {

  /** The filter's argument: Python dispatches on `isinstance(inp, str)`. */
  datatype Text = Str(s: string) | Strings(items: seq<string>)

  /** The list branch: a new list whose element i is `prefix + items[i]`. */
  function PrefixEach(items: seq<string>, prefix: string): (r: seq<string>)
    ensures |r| == |items|
    ensures forall i :: 0 <= i < |items| ==> r[i] == prefix + items[i]
  {
    if items == [] then []
    else [prefix + items[0]] + PrefixEach(items[1..], prefix)
  }

  /** `add_prefix(inp, prefix)`. */
  function AddPrefix(inp: Text, prefix: string): (r: Text)
    ensures inp.Str? ==> r == Str(prefix + inp.s)
    ensures inp.Strings? ==> r.Strings? && |r.items| == |inp.items|
    ensures inp.Strings? ==> forall i :: 0 <= i < |inp.items| ==> r.items[i] == prefix + inp.items[i]
  {
    match inp
    case Str(s) => Str(prefix + s)
    case Strings(items) => Strings(PrefixEach(items, prefix))
  }

  /** Every string of the result starts with the prefix. */
  predicate StartsWith(t: Text, prefix: string)
  {
    match t
    case Str(s) => prefix <= s
    case Strings(items) => forall i :: 0 <= i < |items| ==> prefix <= items[i]
  }

  /** Undo `add_prefix`: drop the prefix from every string. */
  function StripPrefix(t: Text, prefix: string): (r: Text)
    requires StartsWith(t, prefix)
    ensures t.Str? <==> r.Str?
    ensures r.Strings? ==> |r.items| == |t.items|
  {
    match t
    case Str(s) => Str(s[|prefix|..])
    case Strings(items) => Strings(seq(|items|, i requires 0 <= i < |items| => items[i][|prefix|..]))
  }

  /** Every string that `add_prefix` returns starts with the prefix. */
  lemma AddPrefixStartsWith(inp: Text, prefix: string)
    ensures StartsWith(AddPrefix(inp, prefix), prefix)
  {
    var r := AddPrefix(inp, prefix);
    if inp.Strings? {
      forall i | 0 <= i < |r.items|
        ensures prefix <= r.items[i]
      {
        assert r.items[i] == prefix + inp.items[i];
      }
    }
  }

  /** Stripping the prefix recovers the filter's argument. */
  lemma StripAddPrefix(inp: Text, prefix: string)
    ensures StartsWith(AddPrefix(inp, prefix), prefix)
    ensures StripPrefix(AddPrefix(inp, prefix), prefix) == inp
  {
    AddPrefixStartsWith(inp, prefix);
    var r := AddPrefix(inp, prefix);
    match inp
    case Str(s) =>
      assert (prefix + s)[|prefix|..] == s;
    case Strings(items) =>
      var back := StripPrefix(r, prefix);
      forall i | 0 <= i < |items|
        ensures back.items[i] == items[i]
      {
        assert r.items[i] == prefix + items[i];
        assert (prefix + items[i])[|prefix|..] == items[i];
      }
  }

  /** Prefixing twice is prefixing once with the two prefixes joined, outer first. */
  lemma AddPrefixTwice(inp: Text, p: string, q: string)
    ensures AddPrefix(AddPrefix(inp, p), q) == AddPrefix(inp, q + p)
  {
    match inp
    case Str(s) =>
      assert q + (p + s) == (q + p) + s;
    case Strings(items) =>
      var lhs := AddPrefix(AddPrefix(inp, p), q).items;
      var rhs := AddPrefix(inp, q + p).items;
      forall i | 0 <= i < |items|
        ensures lhs[i] == rhs[i]
      {
        assert q + (p + items[i]) == (q + p) + items[i];
      }
  }

  /** An empty list maps to an empty list. */
  lemma AddPrefixEmptyList(prefix: string)
    ensures AddPrefix(Strings([]), prefix) == Strings([])
  {
  }
}
