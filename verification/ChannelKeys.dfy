/** The text a multi-key channel stores its keys in: one key per line, or a JSON array. */
module ChannelKeys {
  import opened Wrappers
  import opened Sequences
  import opened Text

  /** Parsing of a JSON array into the raw text of its elements. */
  type ArrayParser = string -> Option<seq<string>>

  predicate LooksLikeArray(text: string) {
    "[" <= TrimSpace(text)
  }

  /** A non-empty text that is read as a JSON array. */
  predicate IsArray(text: string, parse: ArrayParser) {
    text != "" && LooksLikeArray(text) && parse(TrimSpace(text)).Some?
  }

  function Lines(text: string): seq<string> {
    Split(TrimChar(text, '\n'), '\n')
  }

  /** `Channel.GetKeys`. */
  function ParseKeys(text: string, parse: ArrayParser): seq<string> {
    if text == "" then []
    else if IsArray(text, parse) then parse(TrimSpace(text)).value
    else Lines(text)
  }

  /** The list whose length `Channel.Update` stores as the number of keys. */
  function CountedKeys(text: string, parse: ArrayParser): seq<string> {
    if text == "" then []
    else
      var elements := if LooksLikeArray(text) then parse(TrimSpace(text)).GetOr([]) else [];
      if elements == [] then Lines(text) else elements
  }

  /** The stored number of keys is the number of keys, unless the text is an empty JSON array. */
  lemma CountAgrees(text: string, parse: ArrayParser)
    ensures |CountedKeys(text, parse)| == |ParseKeys(text, parse)| <==>
            !(IsArray(text, parse) && parse(TrimSpace(text)) == Some([]))
    ensures ParseKeys(text, parse) != [] ==> CountedKeys(text, parse) == ParseKeys(text, parse)
  {
    assert |Lines(text)| >= 1;
  }

  // ---------------------------------------------------------------- writing keys back

  /** How the actions write the keys that are left. */
  function KeyText(keys: seq<string>): string {
    Join(keys, '\n')
  }

  /** Written one per line and read again, the keys are the same. */
  predicate ReadsBack(keys: seq<string>, parse: ArrayParser) {
    ParseKeys(KeyText(keys), parse) == keys
  }

  /** Keys read back exactly when none spans several lines, as an element of an indented JSON array does,
      and neither the first nor the last is empty; unless their text happens to be a JSON array. */
  lemma KeysReadBack(keys: seq<string>, parse: ArrayParser)
    requires keys != [] && !IsArray(KeyText(keys), parse)
    ensures ReadsBack(keys, parse) <==>
            Separable(keys, '\n') && keys[0] != "" && keys[|keys| - 1] != ""
  {
    JoinTrimSplit(keys, '\n');
    if |keys| > 1 {
      JoinFirst(keys, '\n');
    }
  }

  /** A key that does not look like the start of an array. */
  predicate Bracketless(key: string) {
    !LooksLikeArray(key)
  }

  lemma {:induction false} LeadsJoined(keys: seq<string>, i: nat)
    requires keys != [] && i < |KeyText(keys)| && KeyText(keys)[i] == '[' && Blank(KeyText(keys)[..i])
    ensures exists k :: 0 <= k < |keys| && Leads(keys[k], '[')
    decreases |keys|
  {
    var text := KeyText(keys);
    if |keys| > 1 {
      var rest, n := KeyText(keys[1..]), |keys[0]| + 1;
      assert text == keys[0] + "\n" + rest;
      if i < n {
        assert text[..i] == keys[0][..i];
      } else {
        assert rest[i - n] == '[';
        forall j | 0 <= j < i - n
          ensures IsSpace(rest[j])
        {
          assert text[..i][n + j] == rest[j];
        }
        LeadsJoined(keys[1..], i - n);
        var k :| 0 <= k < |keys[1..]| && Leads(keys[1..][k], '[');
        assert keys[k + 1] == keys[1..][k];
      }
    }
  }

  /** Lines none of which starts like an array are no array together. */
  lemma BracketlessIsNoArray(keys: seq<string>, parse: ArrayParser)
    requires forall i :: 0 <= i < |keys| ==> Bracketless(keys[i])
    ensures !IsArray(KeyText(keys), parse)
  {
    if keys != [] {
      var text := KeyText(keys);
      TrimLeads(text, '[');
      if Leads(text, '[') {
        var i :| 0 <= i < |text| && text[i] == '[' && Blank(text[..i]);
        LeadsJoined(keys, i);
        var k :| 0 <= k < |keys| && Leads(keys[k], '[');
        TrimLeads(keys[k], '[');
      }
    }
  }

  // ---------------------------------------------------------------- keys that survive any deletion

  /** Whatever proper part of the keys is left, it reads back. */
  ghost predicate Storable(keys: seq<string>, parse: ArrayParser) {
    forall left :: left != [] && |left| < |keys| && Subseq(left, keys) ==> ReadsBack(left, parse)
  }

  /** Non-empty one-line keys that do not start like an array survive any deletion, padded ones and ones
      that end in a carriage return included. */
  lemma PlainKeysAreStorable(keys: seq<string>, parse: ArrayParser)
    requires forall i :: 0 <= i < |keys| ==> keys[i] != "" && Without(keys[i], '\n') && Bracketless(keys[i])
    ensures Storable(keys, parse)
  {
    forall left | left != [] && |left| < |keys| && Subseq(left, keys)
      ensures ReadsBack(left, parse)
    {
      var at :| Picks(at, left, keys);
      assert forall i :: 0 <= i < |left| ==> left[i] == keys[at[i]];
      BracketlessIsNoArray(left, parse);
      KeysReadBack(left, parse);
    }
  }

  /** Conversely, of two keys or more, one that is empty or spans lines does not survive on its own. */
  lemma StorableKeysArePlain(keys: seq<string>, parse: ArrayParser, i: nat)
    requires Storable(keys, parse) && |keys| > 1 && i < |keys| && !IsArray(keys[i], parse)
    ensures keys[i] != "" && Without(keys[i], '\n')
  {
    assert Picks([i], [keys[i]], keys);
    KeysReadBack([keys[i]], parse);
  }
}
