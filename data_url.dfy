/**
 * The prefix strip of `convertBlobToBase64` (src/pages/recording.js): the reader's
 * data URL is split at every comma and field 1 is kept. A JavaScript `split` with a
 * one-character separator is modelled by `Split`, and `Join` is its inverse.
 */
module DataUrl {
  import opened Wrappers

  /** `s.split(sep)` for a one-character separator: the maximal runs between separators, in order. */
  function Split(s: string, sep: char): (fields: seq<string>)
    ensures |fields| >= 1
    decreases |s|
  {
    if s == [] then [[]]
    else
      var rest := Split(s[1..], sep);
      if s[0] == sep then [[]] + rest
      else [[s[0]] + rest[0]] + rest[1..]
  }

  /** `fields.join(sep)`. */
  function Join(fields: seq<string>, sep: char): (s: string)
    requires |fields| >= 1
    decreases |fields|
  {
    if |fields| == 1 then fields[0]
    else fields[0] + [sep] + Join(fields[1..], sep)
  }

  /** Splitting and joining again gives back the original text. */
  lemma {:induction false} JoinSplit(s: string, sep: char)
    ensures Join(Split(s, sep), sep) == s
    decreases |s|
  {
    if s != [] {
      var rest := Split(s[1..], sep);
      JoinSplit(s[1..], sep);
      if s[0] == sep {
        assert Split(s, sep) == [[]] + rest;
        assert ([[]] + rest)[1..] == rest;
      } else {
        var fields := [[s[0]] + rest[0]] + rest[1..];
        assert Split(s, sep) == fields;
        if |rest| > 1 {
          assert fields[1..] == rest[1..];
          assert Join(rest, sep) == rest[0] + [sep] + Join(rest[1..], sep);
        }
      }
    }
  }

  /** No field holds the separator. */
  lemma {:induction false} SplitFieldsFree(s: string, sep: char)
    ensures forall i :: 0 <= i < |Split(s, sep)| ==> sep !in Split(s, sep)[i]
    decreases |s|
  {
    if s != [] {
      SplitFieldsFree(s[1..], sep);
    }
  }

  /** A text without the separator is its own only field. */
  lemma {:induction false} SplitNoSeparator(s: string, sep: char)
    requires sep !in s
    ensures Split(s, sep) == [s]
    decreases |s|
  {
    if s != [] {
      SplitNoSeparator(s[1..], sep);
      assert [s[0]] + s[1..] == s;
    }
  }

  /** The text before the first separator is field 0; the rest is split on its own. */
  lemma {:induction false} SplitAtFirst(a: string, b: string, sep: char)
    requires sep !in a
    ensures Split(a + [sep] + b, sep) == [a] + Split(b, sep)
    decreases |a|
  {
    if a == [] {
      assert [] + [sep] + b == [sep] + b;
      assert ([sep] + b)[1..] == b;
    } else {
      var s := a + [sep] + b;
      assert s[0] == a[0] && s[1..] == a[1..] + [sep] + b;
      SplitAtFirst(a[1..], b, sep);
      assert [a[0]] + a[1..] == a;
    }
  }

  /** A text with a separator splits into at least two fields. */
  lemma {:induction false} SplitHasTwoFields(s: string, sep: char)
    requires sep in s
    ensures |Split(s, sep)| >= 2
    decreases |s|
  {
    if s[0] != sep {
      SplitHasTwoFields(s[1..], sep);
    }
  }

  /**
   * `reader.result.split(",")[1]`: the field after the first comma, up to the next
   * comma if there is one; with no comma at all the index is out of range and the
   * result is `undefined` (`None`).
   */
  function StripDataUrlPrefix(dataUrl: string): (payload: Option<string>) {
    var fields := Split(dataUrl, ',');
    if |fields| >= 2 then Some(fields[1]) else None
  }

  /** The strip yields a value exactly when the text holds a comma. */
  lemma StripDefinedIff(dataUrl: string)
    ensures StripDataUrlPrefix(dataUrl).Some? <==> ',' in dataUrl
  {
    if ',' in dataUrl {
      SplitHasTwoFields(dataUrl, ',');
    } else {
      SplitNoSeparator(dataUrl, ',');
    }
  }

  /**
   * For any text `head + "," + tail` with no comma in `head`, the strip returns the
   * longest comma-free prefix of `tail`: the whole of `tail` when it has no comma,
   * otherwise the part before its first comma.
   */
  lemma StripAfterFirstComma(head: string, tail: string)
    requires ',' !in head
    ensures var r := StripDataUrlPrefix(head + [','] + tail);
      r.Some? && ',' !in r.value && r.value <= tail
      && (|r.value| == |tail| || tail[|r.value|] == ',')
  {
    SplitAtFirst(head, tail, ',');
    SplitFieldsFree(tail, ',');
    JoinSplit(tail, ',');
    var fields := Split(tail, ',');
    assert StripDataUrlPrefix(head + [','] + tail) == Some(fields[0]);
    if |fields| > 1 {
      assert tail == fields[0] + [','] + Join(fields[1..], ',');
    }
  }

  /** A data URL `data:<mime>;base64,<payload>` whose parts hold no comma strips to exactly the payload. */
  lemma StripBase64DataUrl(mime: string, payload: string)
    requires ',' !in mime && ',' !in payload
    ensures StripDataUrlPrefix("data:" + mime + ";base64," + payload) == Some(payload)
  {
    var head := "data:" + mime + ";base64";
    assert "data:" + mime + ";base64," + payload == head + [','] + payload;
    SplitAtFirst(head, payload, ',');
    SplitNoSeparator(payload, ',');
  }
}
