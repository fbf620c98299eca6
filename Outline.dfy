/**
 * The outline both extractors produce: a document title and a list of
 * headings, each with its level ("H1" is level 1), its cleaned text and the
 * 1-based page it sits on; and the final de-duplication that keeps the first
 * heading for each pair (lower-cased text, page).
 */
module Outline {
  import opened Text

  datatype Option<T> = None | Some(value: T)

  /** A page number as `enumerate(pdf.pages, 1)` hands it out. */
  type PageNo = n: nat | n >= 1 witness 1

  /** One `{"level": "H<level>", "text": ..., "page": ...}` record. */
  datatype Entry = Entry(level: nat, text: string, page: PageNo)

  /** `{"title": ..., "outline": [...]}`. */
  datatype OutlineResult = OutlineResult(title: string, outline: seq<Entry>)

  /** `'bold' in font_name or 'black' in font_name or 'heavy' in font_name` on the lower-cased font name. */
  predicate IsBoldFont(fontName: string)
  {
    var n := Lower(fontName);
    IsSubstring("bold", n) || IsSubstring("black", n) || IsSubstring("heavy", n)
  }

  /** A classified line as the entries it appends: none, or its heading. */
  function OptionToSeq(o: Option<Entry>): seq<Entry>
  {
    if o.Some? then [o.value] else []
  }

  /** The identifier `(text.lower(), page)` that decides whether two entries are the same. */
  function Key(e: Entry): (string, nat)
  {
    (Lower(e.text), e.page)
  }

  /** No two entries share a key. */
  predicate UniqueKeys(o: seq<Entry>)
  {
    forall i, j :: 0 <= i < j < |o| ==> Key(o[i]) != Key(o[j])
  }

  /** Entry `i` is the first one with its key. */
  predicate IsFirstOfKey(o: seq<Entry>, i: nat)
    requires i < |o|
  {
    forall j :: 0 <= j < i ==> Key(o[j]) != Key(o[i])
  }

  /** The entries among the first `n` that are first of their key, in their order. */
  function FirstsUpTo(o: seq<Entry>, n: nat): seq<Entry>
    requires n <= |o|
  {
    if n == 0 then []
    else FirstsUpTo(o, n - 1) + (if IsFirstOfKey(o, n - 1) then [o[n - 1]] else [])
  }

  /** The de-duplicated outline: the first entry of each key, in document order. */
  function FirstOccurrences(o: seq<Entry>): seq<Entry>
  {
    FirstsUpTo(o, |o|)
  }

  /** The keys of the first `n` entries. */
  function KeysUpTo(o: seq<Entry>, n: nat): set<(string, nat)>
    requires n <= |o|
  {
    set j | 0 <= j < n :: Key(o[j])
  }

  /**
   * The post-processing loop: an entry is appended, and its key added to
   * the `seen` set, unless the key was seen before.
   */
  method Deduplicate(outline: seq<Entry>) returns (final: seq<Entry>)
    ensures final == FirstOccurrences(outline)
    ensures UniqueKeys(final)
  {
    final := [];
    var seen: set<(string, nat)> := {};
    for i := 0 to |outline|
      invariant final == FirstsUpTo(outline, i)
      invariant seen == KeysUpTo(outline, i)
    {
      var id := Key(outline[i]);
      assert KeysUpTo(outline, i + 1) == seen + {id};
      if id !in seen {
        assert IsFirstOfKey(outline, i);
        final := final + [outline[i]];
        seen := seen + {id};
      } else {
        var j :| 0 <= j < i && Key(outline[j]) == id;
        assert !IsFirstOfKey(outline, i);
      }
    }
    FirstOccurrencesUnique(outline);
  }

  /** Every kept entry is one of the first `n`, and is first of its key there. */
  lemma {:induction false} FirstsUpToFrom(o: seq<Entry>, n: nat, k: nat)
    requires n <= |o| && k < |FirstsUpTo(o, n)|
    ensures exists i :: 0 <= i < n && IsFirstOfKey(o, i) && FirstsUpTo(o, n)[k] == o[i]
  {
    var p := FirstsUpTo(o, n - 1);
    if k < |p| {
      FirstsUpToFrom(o, n - 1, k);
      var i :| 0 <= i < n - 1 && IsFirstOfKey(o, i) && p[k] == o[i];
      assert FirstsUpTo(o, n)[k] == p[k];
    } else {
      assert IsFirstOfKey(o, n - 1) && FirstsUpTo(o, n)[k] == o[n - 1];
    }
  }

  /** The keys kept among the first `n` entries are pairwise distinct and all among their keys. */
  lemma {:induction false} FirstsUpToUnique(o: seq<Entry>, n: nat)
    requires n <= |o|
    ensures UniqueKeys(FirstsUpTo(o, n))
    ensures forall k :: 0 <= k < |FirstsUpTo(o, n)| ==> Key(FirstsUpTo(o, n)[k]) in KeysUpTo(o, n)
  {
    if n > 0 {
      FirstsUpToUnique(o, n - 1);
      var p := FirstsUpTo(o, n - 1);
      var r := FirstsUpTo(o, n);
      forall k | 0 <= k < |p| ensures Key(r[k]) in KeysUpTo(o, n) {
        assert r[k] == p[k];
        var j :| 0 <= j < n - 1 && Key(o[j]) == Key(p[k]);
        assert Key(o[j]) in KeysUpTo(o, n);
      }
      if IsFirstOfKey(o, n - 1) {
        forall k | 0 <= k < |p| ensures Key(p[k]) != Key(o[n - 1]) {
          var j :| 0 <= j < n - 1 && Key(o[j]) == Key(p[k]);
        }
        assert Key(o[n - 1]) in KeysUpTo(o, n);
      }
    }
  }

  /** No two entries of the de-duplicated outline share a key. */
  lemma FirstOccurrencesUnique(o: seq<Entry>)
    ensures UniqueKeys(FirstOccurrences(o))
  {
    FirstsUpToUnique(o, |o|);
  }

  /** Each key present among the first `n` entries is kept, through its first entry. */
  lemma {:induction false} FirstsUpToKeepsEveryKey(o: seq<Entry>, n: nat)
    requires n <= |o|
    ensures forall i :: 0 <= i < n ==> Key(o[i]) in KeysUpTo(FirstsUpTo(o, n), |FirstsUpTo(o, n)|)
  {
    if n > 0 {
      FirstsUpToKeepsEveryKey(o, n - 1);
      var p := FirstsUpTo(o, n - 1);
      var r := FirstsUpTo(o, n);
      forall i | 0 <= i < n ensures Key(o[i]) in KeysUpTo(r, |r|) {
        if IsFirstOfKey(o, i) && i == n - 1 {
          assert r[|r| - 1] == o[i];
        } else {
          var i0 := if i < n - 1 then i else FirstWithKey(o, i);
          assert i0 < n - 1 && Key(o[i0]) == Key(o[i]);
          assert Key(o[i0]) in KeysUpTo(p, |p|);
          var k :| 0 <= k < |p| && Key(p[k]) == Key(o[i0]);
          assert r[k] == p[k];
        }
      }
    }
  }

  /** The position of the first entry that shares entry `i`'s key. */
  function FirstWithKey(o: seq<Entry>, i: nat): (j: nat)
    requires i < |o|
    ensures j <= i && Key(o[j]) == Key(o[i]) && IsFirstOfKey(o, j)
    ensures !IsFirstOfKey(o, i) ==> j < i
  {
    if IsFirstOfKey(o, i) then i
    else
      var j :| 0 <= j < i && Key(o[j]) == Key(o[i]);
      FirstWithKey(o, j)
  }

  /** De-duplication loses no key: every key of the input is the key of a kept entry. */
  lemma FirstOccurrencesKeepsEveryKey(o: seq<Entry>)
    ensures forall i :: 0 <= i < |o| ==> Key(o[i]) in KeysUpTo(FirstOccurrences(o), |FirstOccurrences(o)|)
  {
    FirstsUpToKeepsEveryKey(o, |o|);
  }

  /** On an outline whose keys are already unique, de-duplication changes nothing. */
  lemma {:induction false} UniqueKeysKept(o: seq<Entry>, n: nat)
    requires n <= |o| && UniqueKeys(o)
    ensures FirstsUpTo(o, n) == o[..n]
  {
    if n > 0 {
      UniqueKeysKept(o, n - 1);
      assert IsFirstOfKey(o, n - 1);
      assert o[..n] == o[..n - 1] + [o[n - 1]];
    }
  }

  /** De-duplicating twice is de-duplicating once. */
  lemma FirstOccurrencesIdempotent(o: seq<Entry>)
    ensures FirstOccurrences(FirstOccurrences(o)) == FirstOccurrences(o)
  {
    var r := FirstOccurrences(o);
    FirstOccurrencesUnique(o);
    UniqueKeysKept(r, |r|);
    assert r[..|r|] == r;
  }
}
