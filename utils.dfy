/**
 * Removing a reasoning model's scratch text from its reply (accord/utils.py).
 * The reply keeps only what follows the first closing tag `</think>`; a reply
 * without that tag makes `str.index` raise, which is `Err(MissingCloseTag)` here.
 */
module Utils {
  import opened Results
  import opened Text

  const CloseTag: string := "</think>"

  /** `message[message.index("</think>") + len("</think>"):]` */
  function RemoveThinking(message: string): (r: Result<string>)
    ensures r.Err? <==> !Contains(message, CloseTag)
    ensures r.Err? ==> r.error == MissingCloseTag
    ensures r.Ok? ==> exists i ::
      && OccursAt(message, CloseTag, i)
      && (forall j :: 0 <= j < i ==> !OccursAt(message, CloseTag, j))
      && r.value == message[i + |CloseTag|..]
      && |r.value| == |message| - i - |CloseTag|
  {
    match IndexOf(message, CloseTag)
    case None => Err(MissingCloseTag)
    case Some(i) => Ok(message[i + |CloseTag|..])
  }

  /** Two occurrences of the tag never overlap: only its first character is '<'. */
  lemma CloseTagNoOverlap(s: string, i: int, j: int)
    requires OccursAt(s, CloseTag, i) && OccursAt(s, CloseTag, j) && i < j
    ensures j >= i + |CloseTag|
  {
    assert s[j] == s[j..j + |CloseTag|][0];
  }

  /** An occurrence in `s[k..]` is an occurrence in `s`, shifted by `k`, and back. */
  lemma OccursInSuffix(s: string, k: nat, j: int)
    requires k <= |s|
    ensures OccursAt(s[k..], CloseTag, j) <==> j >= 0 && OccursAt(s, CloseTag, k + j)
  {
    if 0 <= j && j + |CloseTag| <= |s| - k {
      assert s[k..][j..j + |CloseTag|] == s[k + j..k + j + |CloseTag|];
    }
  }

  /** A tag that starts before `|prefix|` in `prefix + CloseTag + rest` would lie in `prefix` or overlap the tag after it. */
  lemma NoTagBefore(prefix: string, rest: string, x: int)
    requires !Contains(prefix, CloseTag)
    requires 0 <= x < |prefix|
    ensures !OccursAt(prefix + CloseTag + rest, CloseTag, x)
  {
    var m := prefix + CloseTag + rest;
    assert m[|prefix|..|prefix| + |CloseTag|] == CloseTag;
    if x + |CloseTag| <= |prefix| {
      assert m[x..x + |CloseTag|] == prefix[x..x + |CloseTag|];
      assert !OccursAt(prefix, CloseTag, x);
    } else if OccursAt(m, CloseTag, x) {
      CloseTagNoOverlap(m, x, |prefix|);
    }
  }

  /**
   * The decomposition, read the other way: whenever the message is some tag-free
   * prefix, the tag, and a rest, stripping yields exactly that rest.
   */
  lemma RemoveThinkingOfDecomposition(prefix: string, rest: string)
    requires !Contains(prefix, CloseTag)
    ensures RemoveThinking(prefix + CloseTag + rest) == Ok(rest)
  {
    var m := prefix + CloseTag + rest;
    assert m[|prefix|..|prefix| + |CloseTag|] == CloseTag;
    assert OccursAt(m, CloseTag, |prefix|);
    forall x | 0 <= x < |prefix|
      ensures !OccursAt(m, CloseTag, x)
    {
      NoTagBefore(prefix, rest, x);
    }
    var i := IndexOf(m, CloseTag).value;
    assert i == |prefix|;
    assert m[|prefix| + |CloseTag|..] == rest;
  }

  /**
   * A successful strip decomposes the message as prefix + tag + result with a prefix
   * that holds no tag, so the result is exactly the text after the first tag.
   */
  lemma RemoveThinkingDecomposes(message: string)
    requires RemoveThinking(message).Ok?
    ensures exists prefix :: !Contains(prefix, CloseTag) && message == prefix + CloseTag + RemoveThinking(message).value
  {
    var i := IndexOf(message, CloseTag).value;
    var prefix := message[..i];
    forall j | OccursAt(prefix, CloseTag, j)
      ensures OccursAt(message, CloseTag, j)
    {
      assert prefix[j..j + |CloseTag|] == message[j..j + |CloseTag|];
    }
    assert !Contains(prefix, CloseTag);
    assert message[i..i + |CloseTag|] == CloseTag;
    assert message == prefix + message[i..i + |CloseTag|] + message[i + |CloseTag|..];
  }

  /**
   * The stripped text is free of the tag exactly when the message holds the tag once:
   * any later tag survives the strip, and no tag can start inside the first one.
   */
  lemma TagFreeIffSingleTag(message: string)
    requires RemoveThinking(message).Ok?
    ensures !Contains(RemoveThinking(message).value, CloseTag) <==> OccursOnce(message, CloseTag)
  {
    var i := IndexOf(message, CloseTag).value;
    var k := i + |CloseTag|;
    var v := RemoveThinking(message).value;
    assert v == message[k..];
    assert OccursAt(message, CloseTag, i);
    LaterTagsSurvive(message);
    if Contains(v, CloseTag) {
      var j :| OccursAt(v, CloseTag, j);
      OccursInSuffix(message, k, j);
      assert OccursAt(message, CloseTag, k + j) && k + j != i;
    }
  }

  /** Every tag in the message other than the first is a tag in the stripped text. */
  lemma LaterTagsSurvive(message: string)
    requires RemoveThinking(message).Ok?
    ensures var i := IndexOf(message, CloseTag).value;
      forall x :: OccursAt(message, CloseTag, x) ==>
        x == i || (x >= i + |CloseTag| && OccursAt(RemoveThinking(message).value, CloseTag, x - i - |CloseTag|))
  {
    var i := IndexOf(message, CloseTag).value;
    var k := i + |CloseTag|;
    forall x | OccursAt(message, CloseTag, x)
      ensures x == i || (x >= k && OccursAt(message[k..], CloseTag, x - k))
    {
      if x != i {
        CloseTagNoOverlap(message, i, x);
        OccursInSuffix(message, k, x - k);
      }
    }
  }
}
