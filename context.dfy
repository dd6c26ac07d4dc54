/**
 * The `key=value` options of `workdir new`, turned into the extra context
 * handed to the template renderer.
 */
module ExtraContext {
  import opened Wrappers
  import opened Text

  /** The stripped key and value of one option. */
  datatype Pair = Pair(key: string, value: string)

  /**
   * The key and value one option contributes: split at its first `=`, both
   * sides stripped of surrounding whitespace; `None` (the option is warned
   * about and skipped) when it has no `=`.
   */
  function ParseItem(item: string): (r: Option<Pair>)
    ensures r.None? <==> '=' !in item
  {
    match SplitAtFirst(item, '=')
    case None => None
    case Some((key, value)) => Some(Pair(Strip(key), Strip(value)))
  }

  /** The value may itself contain `=`: only the first one separates. */
  lemma ValueKeepsLaterEquals(key: string, value: string)
    requires '=' !in key
    ensures ParseItem(key + "=" + value) == Some(Pair(Strip(key), Strip(value)))
  {
    SplitAtFirstUnique(key, '=', value);
  }

  /** The context built from the options in order: a later key overwrites an earlier one. */
  function ContextOf(items: seq<string>): map<string, string>
    decreases |items|
  {
    if items == [] then map[]
    else
      var ctx := ContextOf(items[..|items| - 1]);
      var option := ParseItem(items[|items| - 1]);
      if option.None? then ctx else ctx[option.value.key := option.value.value]
  }

  /** The context for the optional list of options: none given reads as no options. */
  function Context(items: Option<seq<string>>): map<string, string> {
    match items
    case None => map[]
    case Some(xs) => ContextOf(xs)
  }

  /** `_parse_extra_context`: fills the context option by option. */
  method ParseExtraContext(items: Option<seq<string>>) returns (ctx: map<string, string>)
    ensures ctx == Context(items)
  {
    ctx := map[];
    if items.None? || |items.value| == 0 {
      return;
    }
    var xs := items.value;
    for i := 0 to |xs|
      invariant ctx == ContextOf(xs[..i])
    {
      assert xs[..i + 1][..i] == xs[..i];
      var item := xs[i];
      var kv := SplitAtFirst(item, '=');
      if kv.None? {
        continue;
      }
      var key, value := kv.value.0, kv.value.1;
      ctx := ctx[Strip(key) := Strip(value)];
    }
    assert xs[..|xs|] == xs;
  }

  /** A key is in the context exactly when some option with `=` names it. */
  lemma {:induction false} KeysOfContext(items: seq<string>, key: string)
    ensures key in ContextOf(items) <==>
            exists i :: 0 <= i < |items| && ParseItem(items[i]).Some? && ParseItem(items[i]).value.key == key
    decreases |items|
  {
    if items != [] {
      var n := |items| - 1;
      var init := items[..n];
      KeysOfContext(init, key);
      var option := ParseItem(items[n]);
      if option.Some? && option.value.key == key {
        assert ParseItem(items[n]).Some? && ParseItem(items[n]).value.key == key;
      } else if key in ContextOf(init) {
        var i :| 0 <= i < |init| && ParseItem(init[i]).Some? && ParseItem(init[i]).value.key == key;
        assert init[i] == items[i];
      } else {
        forall i | 0 <= i < |items| && ParseItem(items[i]).Some?
          ensures ParseItem(items[i]).value.key != key
        {
          if i < n {
            assert init[i] == items[i];
          }
        }
      }
    }
  }

  /** The value of a key is the one given by the last option that names it. */
  lemma {:induction false} LastOptionWins(items: seq<string>, i: nat)
    requires i < |items| && ParseItem(items[i]).Some?
    requires forall j :: i < j < |items| && ParseItem(items[j]).Some? ==>
                         ParseItem(items[j]).value.key != ParseItem(items[i]).value.key
    ensures ParseItem(items[i]).value.key in ContextOf(items)
    ensures ContextOf(items)[ParseItem(items[i]).value.key] == ParseItem(items[i]).value.value
    decreases |items|
  {
    if i < |items| - 1 {
      var init := items[..|items| - 1];
      assert init[i] == items[i];
      assert forall j :: i < j < |init| ==> init[j] == items[j];
      LastOptionWins(init, i);
    }
  }

  /** Options without `=` leave the context as it was. */
  lemma SkippedOption(items: seq<string>, item: string)
    requires '=' !in item
    ensures ContextOf(items + [item]) == ContextOf(items)
  {
    assert (items + [item])[..|items|] == items;
  }
}
