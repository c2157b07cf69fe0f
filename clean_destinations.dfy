/**
 * The record-cleaning helpers of scripts/clean_destinations.py, which turn
 * scraped destination entries into the cleaned dataset.
 */
module CleanDestinations {
  import opened Wrappers
  import opened Text

  /** A scraped entry; `None` is a key missing from the JSON object (or `null`). */
  datatype RawItem = RawItem(name: Option<string>, bestTime: Option<string>, description: Option<string>,
                             url: Option<string>)

  /** A cleaned entry as written to the processed dataset. */
  datatype CleanRecord = CleanRecord(name: string, state: Option<string>, bestTime: Option<string>,
                                     description: string, url: Option<string>)

  /** `re.sub` raises a TypeError on the item at `index`, whose name is missing. */
  datatype CleanError = MissingName(index: nat)

  const ReadMore: string := "Read More"
  const DefaultDescription: string := "Popular tourist destination in India"

  /** The length of the run of digits that starts `s`. */
  function DigitRun(s: string): (n: nat)
    ensures n <= |s| && AllDigits(s[..n])
    ensures n == |s| || !IsDigit(s[n])
  {
    if s == [] || !IsDigit(s[0]) then 0
    else
      var n := DigitRun(s[1..]);
      assert s[..n + 1] == [s[0]] + s[1..][..n];
      n + 1
  }

  /** `s` starts with one or more digits followed by a full stop. */
  predicate StartsWithNumbering(s: string) {
    exists n :: 0 < n < |s| && AllDigits(s[..n]) && s[n] == '.'
  }

  /**
   * `re.sub(r"^\d+\.\s*", "", s)`: the pattern can only match at the start,
   * and there it takes the whole digit run, the full stop and every
   * whitespace character after it.
   */
  function StripNumbering(s: string): (r: string)
    ensures |r| <= |s|
    ensures !StartsWithNumbering(s) ==> r == s
    ensures r != s ==> r == [] || !IsSpace(r[0])
  {
    var n := DigitRun(s);
    if 0 < n < |s| && s[n] == '.' then TrimStart(s[n + 1..]) else s
  }

  /** `clean_name`: drops a leading "N. " numbering, then strips. */
  function CleanName(name: string): (r: string)
    ensures |r| <= |name|
    ensures Stripped(r)
  {
    Strip(StripNumbering(name))
  }

  lemma {:induction false} DigitRunOfNumbered(digits: string, rest: string)
    requires AllDigits(digits)
    ensures DigitRun(digits + "." + rest) == |digits|
  {
    if digits != [] {
      assert (digits + "." + rest)[1..] == digits[1..] + "." + rest;
      DigitRunOfNumbered(digits[1..], rest);
    }
  }

  /** A name without a numbering prefix is only stripped. */
  lemma CleanNameUnnumbered(name: string)
    requires !StartsWithNumbering(name)
    ensures CleanName(name) == Strip(name)
  {
  }

  /**
   * When `name` starts with the digits `name[..n]` and a full stop, that
   * prefix goes and what follows it is stripped.
   */
  lemma CleanNameNumbered(name: string, n: nat)
    requires 0 < n < |name| && AllDigits(name[..n]) && name[n] == '.'
    ensures CleanName(name) == Strip(name[n + 1..])
  {
    DigitRunOfNumbered(name[..n], name[n + 1..]);
    assert name == name[..n] + "." + name[n + 1..];
    var t := TrimStart(name[n + 1..]);
    assert TrimStart(t) == t;
  }

  /**
   * A name that starts with whitespace has no numbering prefix, so a number
   * after the whitespace is kept and the name is only stripped.
   */
  lemma CleanNameIndented(name: string)
    requires name != [] && IsSpace(name[0])
    ensures CleanName(name) == Strip(name)
  {
    assert DigitRun(name) == 0;
  }

  /** One space before an already stripped, non-empty text is stripped off. */
  lemma StripOneSpace(s: string)
    requires |s| > 1 && s[0] == ' ' && !IsSpace(s[1]) && !IsSpace(s[|s| - 1])
    ensures Strip(s) == s[1..]
  {
    assert TrimStart(s) == TrimStart(s[1..]);
  }

  lemma DigitIsNotSpace(c: char)
    requires IsDigit(c)
    ensures !IsSpace(c)
  {
  }

  lemma SpacedNumberingParts(digits: string, rest: string)
    requires AllDigits(digits)
    ensures AllDigits((digits + ". " + rest)[..|digits|])
    ensures (digits + ". " + rest)[|digits|] == '.'
    ensures (digits + ". " + rest)[|digits| + 1..] == " " + rest
  {
    assert (digits + ". " + rest)[..|digits|] == digits;
  }

  lemma StripAfterSpace(rest: string)
    requires rest != [] && Stripped(rest)
    ensures Strip(" " + rest) == rest
  {
    StripOneSpace(" " + rest);
    assert (" " + rest)[1..] == rest;
  }

  /** "N. text" cleans to the text when the text is already stripped. */
  lemma CleanNameNumberedSpaced(digits: string, rest: string)
    requires digits != [] && AllDigits(digits)
    requires rest != [] && Stripped(rest)
    ensures CleanName(digits + ". " + rest) == rest
  {
    SpacedNumberingParts(digits, rest);
    CleanNameNumbered(digits + ". " + rest, |digits|);
    StripAfterSpace(rest);
  }

  /**
   * Only one numbering prefix is removed: "1. 2. Goa" cleans to "2. Goa",
   * which cleans again to "Goa", so cleaning is not idempotent.
   */
  lemma CleanNameNotIdempotent(d1: string, d2: string, rest: string)
    requires d1 != [] && AllDigits(d1) && d2 != [] && AllDigits(d2)
    requires rest != [] && Stripped(rest)
    ensures CleanName(d1 + ". " + d2 + ". " + rest) == d2 + ". " + rest
    ensures CleanName(d2 + ". " + rest) == rest
  {
    var inner := d2 + ". " + rest;
    assert Stripped(inner) by {
      DigitIsNotSpace(inner[0]);
      assert inner[|inner| - 1] == rest[|rest| - 1];
    }
    assert d1 + ". " + d2 + ". " + rest == d1 + ". " + inner;
    CleanNameNumberedSpaced(d1, inner);
    CleanNameNumberedSpaced(d2, rest);
  }

  /** `clean_description`: the same sentence whatever the input. */
  function CleanDescription(desc: Option<string>): (r: string)
    ensures r == DefaultDescription
  {
    if desc.None? || desc.value == "" then DefaultDescription else DefaultDescription
  }

  /**
   * `clean_best_time`: `None` for a missing or empty value, otherwise the
   * text with every "Read More" deleted, stripped.
   */
  function CleanBestTime(bestTime: Option<string>): (r: Option<string>)
    ensures r.None? <==> bestTime.None? || bestTime.value == ""
    ensures r.Some? ==> |r.value| <= |bestTime.value|
    ensures r.Some? ==> Stripped(r.value)
  {
    if bestTime.None? || bestTime.value == "" then None
    else Some(Strip(RemoveAll(bestTime.value, ReadMore)))
  }

  /** Text without "Read More" is only stripped. */
  lemma CleanBestTimePlain(s: string)
    requires s != "" && !Contains(s, ReadMore)
    ensures CleanBestTime(Some(s)) == Some(Strip(s))
  {
    RemoveAllAbsent(s, ReadMore);
  }

  /**
   * A best time with one "Read More" and no other: the marker is deleted and
   * the text around it joined and stripped, so "October to March Read More"
   * cleans to "October to March".
   */
  lemma CleanBestTimeDropsReadMore(a: string, b: string)
    requires forall k :: 0 <= k < |a| ==> !StartsWith((a + ReadMore + b)[k..], ReadMore)
    requires !Contains(b, ReadMore)
    ensures CleanBestTime(Some(a + ReadMore + b)) == Some(Strip(a + b))
  {
    RemoveAllFirst(a, ReadMore, b);
    RemoveAllAbsent(b, ReadMore);
  }

  /** Text made of "Read More" and whitespace only. */
  predicate OnlyReadMore(s: string) {
    s == [] || (IsSpace(s[0]) && OnlyReadMore(s[1..])) || (StartsWith(s, ReadMore) && OnlyReadMore(s[|ReadMore|..]))
  }

  lemma {:induction false} RemoveReadMoreLeavesSpace(s: string)
    requires OnlyReadMore(s)
    ensures AllSpace(RemoveAll(s, ReadMore))
    decreases |s|
  {
    if s == [] {
    } else if IsSpace(s[0]) && OnlyReadMore(s[1..]) {
      RemoveReadMoreLeavesSpace(s[1..]);
      if |s| >= |ReadMore| {
        assert s[..|ReadMore|][0] != ReadMore[0];
      }
    } else {
      RemoveReadMoreLeavesSpace(s[|ReadMore|..]);
    }
  }

  /** Text made only of "Read More" and whitespace cleans to "" and not to `None`. */
  lemma CleanBestTimeOnlyReadMore(s: string)
    requires s != "" && OnlyReadMore(s)
    ensures CleanBestTime(Some(s)) == Some("")
  {
    RemoveReadMoreLeavesSpace(s);
    StripAllSpace(RemoveAll(s, ReadMore));
  }

  /**
   * The record `clean_dataset` appends for `item`: the cleaned name and
   * best time, the fixed description, no state yet, the URL unchanged.
   */
  function CleanItem(item: RawItem): (r: CleanRecord)
    requires item.name.Some?
    ensures r.name == CleanName(item.name.value) && r.bestTime == CleanBestTime(item.bestTime)
    ensures r.state.None? && r.url == item.url && r.description == DefaultDescription
    ensures r.bestTime.None? <==> item.bestTime.None? || item.bestTime.value == ""
  {
    CleanRecord(CleanName(item.name.value), None, CleanBestTime(item.bestTime),
                CleanDescription(item.description), item.url)
  }

  /** The first position whose item has no name, if any. */
  function FirstMissingName(data: seq<RawItem>): (r: Option<nat>)
    ensures r.Some? ==> r.value < |data| && data[r.value].name.None?
    ensures r.Some? ==> forall k :: 0 <= k < r.value ==> data[k].name.Some?
    ensures r.None? <==> forall k :: 0 <= k < |data| ==> data[k].name.Some?
  {
    if data == [] then None
    else if data[0].name.None? then Some(0)
    else
      match FirstMissingName(data[1..])
      case Some(k) => Some(k + 1)
      case None => None
  }

  lemma FirstMissingNameAt(data: seq<RawItem>, i: nat)
    requires i < |data| && data[i].name.None?
    requires forall k :: 0 <= k < i ==> data[k].name.Some?
    ensures FirstMissingName(data) == Some(i)
  {
  }

  /**
   * The loop of `clean_dataset`: one cleaned record per item, in order, with
   * no state yet and the URL copied; the first item without a name makes
   * `clean_name` raise, and nothing is produced.
   */
  method CleanDataset(data: seq<RawItem>) returns (result: Result<seq<CleanRecord>, CleanError>)
    ensures result.Err? <==> FirstMissingName(data).Some?
    ensures result.Err? ==> result.error == MissingName(FirstMissingName(data).value)
    ensures result.Ok? ==> |result.value| == |data|
    ensures result.Ok? ==> forall i :: 0 <= i < |data| ==> data[i].name.Some? && result.value[i] == CleanItem(data[i])
  {
    var cleaned: seq<CleanRecord> := [];
    var i := 0;
    while i < |data|
      invariant 0 <= i <= |data| && |cleaned| == i
      invariant forall k :: 0 <= k < i ==> data[k].name.Some? && cleaned[k] == CleanItem(data[k])
    {
      var item := data[i];
      if item.name.None? {
        FirstMissingNameAt(data, i);
        return Err(MissingName(i));
      }
      cleaned := cleaned + [CleanItem(item)];
      i := i + 1;
    }
    result := Ok(cleaned);
  }
}
