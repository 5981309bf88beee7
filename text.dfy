/** Error kinds raised by the modelled code, and the result types that carry them. */
module Results {

  /** The exceptions the modelled code raises, one constructor per cause. */
  datatype Error =
    | MissingCloseTag                          // str.index found no "</think>" (ValueError)
    | ExtensionNotAllowed(extension: string)   // load_file's ValueError
    | InvalidUtf8                              // bytes.decode("utf-8") failed
    | UnreadablePdf                            // pypdfium2's PdfDocument rejected the bytes
    | UnreadableDocx                           // python-docx's Document rejected the bytes
    | NoSuchTable                              // sqlite3.OperationalError: no such table: document
    | RowIdExhausted                           // AUTOINCREMENT reached the largest 64-bit rowid
    | ZeroBatchSize                            // range() with a step of zero (ValueError)
    | MissingConfigKey(key: string)            // ConfigBox lookup of an absent key
    | EmptyBm25Corpus                          // BM25Retriever.from_documents of no documents (ValueError)
    | MissingSourceMetadata                    // doc.metadata["source"] (KeyError)

  datatype Option<T> = None | Some(value: T)

  datatype Result<T> = Ok(value: T) | Err(error: Error)

  /** The result of a call that returns nothing in the source but may raise. */
  datatype Outcome = Done | Failed(error: Error)
}

/** String helpers shared by the modules: `str.join`, substring search and `os.path.join`. */
module Text {
  import opened Results

  /** `sep.join(parts)`: the parts in order, with `sep` between neighbours. */
  function Join(sep: string, parts: seq<string>): string
  {
    if |parts| == 0 then ""
    else if |parts| == 1 then parts[0]
    else Join(sep, parts[..|parts| - 1]) + sep + parts[|parts| - 1]
  }

  /** The summed lengths of `parts`. */
  function TotalLength(parts: seq<string>): nat
  {
    if parts == [] then 0 else TotalLength(parts[..|parts| - 1]) + |parts[|parts| - 1]|
  }

  /** The joined string holds every character of every part, plus one separator between each pair of neighbours. */
  lemma {:induction false} JoinLength(sep: string, parts: seq<string>)
    requires |parts| > 0
    ensures |Join(sep, parts)| == TotalLength(parts) + (|parts| - 1) * |sep|
  {
    if |parts| > 1 {
      JoinLength(sep, parts[..|parts| - 1]);
    }
  }

  /**
   * Joining is the same wherever the list is cut: the parts before the cut, one separator,
   * the parts after it. With the one-part and empty cases this pins `Join` down completely,
   * including the order of the parts.
   */
  lemma {:induction false} JoinSplit(sep: string, parts: seq<string>, k: nat)
    requires 0 < k < |parts|
    ensures Join(sep, parts) == Join(sep, parts[..k]) + sep + Join(sep, parts[k..])
  {
    var n := |parts|;
    var init := parts[..n - 1];
    if k < n - 1 {
      JoinSplit(sep, init, k);
      assert init[..k] == parts[..k];
      assert init[k..] == parts[k..][..|parts[k..]| - 1];
      assert parts[k..][|parts[k..]| - 1] == parts[n - 1];
    } else {
      assert parts[k..] == [parts[n - 1]];
    }
  }

  /** `sep.join([first] + rest)` puts `first` in front, then a separator, then the rest joined. */
  lemma JoinCons(sep: string, first: string, rest: seq<string>)
    requires |rest| > 0
    ensures Join(sep, [first] + rest) == first + sep + Join(sep, rest)
  {
    JoinSplit(sep, [first] + rest, 1);
    assert ([first] + rest)[..1] == [first];
    assert ([first] + rest)[1..] == rest;
  }

  /** `s[i:i+len(t)] == t`, with the slice inside `s`. */
  predicate OccursAt(s: string, t: string, i: int)
  {
    0 <= i && i + |t| <= |s| && s[i..i + |t|] == t
  }

  /** `t in s` */
  ghost predicate Contains(s: string, t: string)
  {
    exists i :: OccursAt(s, t, i)
  }

  /** `t` occurs in `s` at exactly one position. */
  ghost predicate OccursOnce(s: string, t: string)
  {
    exists i :: OccursAt(s, t, i) && forall j :: OccursAt(s, t, j) ==> j == i
  }

  /** The first position at or after `from` where `t` occurs in `s`, if any. */
  function IndexFrom(s: string, t: string, from: nat): (r: Option<nat>)
    decreases |s| - from
    ensures r.Some? ==> from <= r.value && OccursAt(s, t, r.value)
    ensures r.Some? ==> forall j :: from <= j < r.value ==> !OccursAt(s, t, j)
    ensures r.None? ==> forall j :: from <= j ==> !OccursAt(s, t, j)
  {
    if from + |t| > |s| then None
    else if s[from..from + |t|] == t then Some(from)
    else IndexFrom(s, t, from + 1)
  }

  /** `s.index(t)` without its exception: the first occurrence of `t`, or None. */
  function IndexOf(s: string, t: string): (r: Option<nat>)
    ensures r.Some? <==> Contains(s, t)
    ensures r.Some? ==> OccursAt(s, t, r.value) && forall j :: 0 <= j < r.value ==> !OccursAt(s, t, j)
  {
    IndexFrom(s, t, 0)
  }

  /** `os.path.join(a, b)` on POSIX: an absolute `b` replaces `a`; a `/` is added only when needed. */
  function PathJoin(a: string, b: string): (p: string)
    ensures |b| > 0 && b[0] == '/' ==> p == b
    ensures (|b| == 0 || b[0] != '/') ==> p == a + b || p == a + "/" + b
    ensures (|b| == 0 || b[0] != '/') && (a == "" || a[|a| - 1] == '/') ==> p == a + b
    ensures (|b| == 0 || b[0] != '/') && a != "" && a[|a| - 1] != '/' ==> p == a + "/" + b
  {
    if |b| > 0 && b[0] == '/' then b
    else if a == "" || a[|a| - 1] == '/' then a + b
    else a + "/" + b
  }
}
