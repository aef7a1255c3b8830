/** src/components/MainPage.jsx: the tracking-number tokenizer, the status
    and last-step helpers of the list, and the rules of the submit handler
    (validation, carrier name, one lookup per number, saving each success). */
module MainPage {
  import opened Model
  import opened Text
  import opened Browser
  import opened Api
  import opened TrackingStorage
  import SlackService

  const NoNumbersMessage := "송장번호를 입력해주세요."
  const NoCarrierMessage := "택배사를 선택해주세요."

  // ---------------------------------------------------------------------
  // parseTrackingNumbers: split(/[\s\n,]+/), trim, drop empty strings
  // ---------------------------------------------------------------------

  /** A character of the class `[\s\n,]`. */
  predicate IsSeparator(c: char) {
    IsWhitespace(c) || c == ','
  }

  predicate NoSeparator(s: string) {
    forall i :: 0 <= i < |s| ==> !IsSeparator(s[i])
  }

  /** The length of the longest prefix of `s` without a separator. */
  function WordLength(s: string): (n: nat)
    ensures n <= |s|
    ensures NoSeparator(s[..n])
    ensures n < |s| ==> IsSeparator(s[n])
  {
    if s == [] || IsSeparator(s[0]) then 0
    else
      var n := 1 + WordLength(s[1..]);
      assert s[..n] == [s[0]] + s[1..][..n - 1];
      n
  }

  /** `s` without its leading run of separators. */
  function SkipSeparators(s: string): (r: string)
    ensures |r| <= |s| && r == s[|s| - |r|..]
    ensures r == [] || !IsSeparator(r[0])
    ensures s != [] && IsSeparator(s[0]) ==> |r| < |s|
  {
    if s != [] && IsSeparator(s[0]) then SkipSeparators(s[1..]) else s
  }

  /** `s.split(/[\s\n,]+/)`: the pieces between runs of separators, with an
      empty first or last piece when `s` starts or ends with a separator
      ("" itself splits into one empty piece). */
  function Split(s: string): seq<string>
    decreases |s|
  {
    var n := WordLength(s);
    if n == |s| then [s]
    else [s[..n]] + Split(SkipSeparators(s[n..]))
  }

  /** `.map(num => num.trim())` */
  function TrimAll(l: seq<string>): (r: seq<string>)
    ensures |r| == |l|
    ensures forall i :: 0 <= i < |l| ==> r[i] == Trim(l[i])
  {
    if l == [] then [] else [Trim(l[0])] + TrimAll(l[1..])
  }

  /** `.filter(num => num.length > 0)` */
  function NonEmpty(l: seq<string>): (r: seq<string>)
    ensures forall t :: t in r ==> t in l && t != ""
    ensures forall t :: t in l && t != "" ==> t in r
  {
    if l == [] then []
    else (if l[0] != "" then [l[0]] else []) + NonEmpty(l[1..])
  }

  /** `parseTrackingNumbers(input)` */
  function ParseTrackingNumbers(input: string): seq<string> {
    NonEmpty(TrimAll(Split(input)))
  }

  /** The characters of `s` that are not separators, in order. */
  function RemoveSeparators(s: string): (r: string)
    ensures NoSeparator(r)
  {
    if s == [] then []
    else (if IsSeparator(s[0]) then [] else [s[0]]) + RemoveSeparators(s[1..])
  }

  function Concat(l: seq<string>): string {
    if l == [] then [] else l[0] + Concat(l[1..])
  }

  lemma {:induction false} RemoveSeparatorsAppend(a: string, b: string)
    ensures RemoveSeparators(a + b) == RemoveSeparators(a) + RemoveSeparators(b)
  {
    if a != [] {
      assert (a + b)[1..] == a[1..] + b;
      RemoveSeparatorsAppend(a[1..], b);
    } else {
      assert a + b == b;
    }
  }

  lemma {:induction false} RemoveSeparatorsOfWord(s: string)
    requires NoSeparator(s)
    ensures RemoveSeparators(s) == s
  {
    if s != [] {
      RemoveSeparatorsOfWord(s[1..]);
    }
  }

  lemma {:induction false} RemoveSeparatorsOfRun(s: string)
    ensures RemoveSeparators(s) == RemoveSeparators(SkipSeparators(s))
  {
    if s != [] && IsSeparator(s[0]) {
      RemoveSeparatorsOfRun(s[1..]);
    }
  }

  /** The split pieces hold no separator. */
  lemma {:induction false} SplitWords(s: string)
    ensures forall t :: t in Split(s) ==> NoSeparator(t)
    decreases |s|
  {
    var n := WordLength(s);
    if n == |s| {
      assert s[..n] == s;
    } else {
      var rest := SkipSeparators(s[n..]);
      SplitWords(rest);
      assert Split(s) == [s[..n]] + Split(rest);
    }
  }

  lemma ConcatCons(x: string, l: seq<string>)
    ensures Concat([x] + l) == x + Concat(l)
  {
    assert ([x] + l)[0] == x && ([x] + l)[1..] == l;
  }

  /** Removing the separators of a word followed by the rest drops the run
      of separators after the word. */
  lemma RemoveSeparatorsAfterWord(s: string, n: nat)
    requires n <= |s| && NoSeparator(s[..n])
    ensures RemoveSeparators(s) == s[..n] + RemoveSeparators(SkipSeparators(s[n..]))
  {
    assert s == s[..n] + s[n..];
    RemoveSeparatorsAppend(s[..n], s[n..]);
    RemoveSeparatorsOfWord(s[..n]);
    RemoveSeparatorsOfRun(s[n..]);
  }

  /** Joined, the split pieces give the input's non-separator characters in
      order. */
  lemma {:induction false} SplitJoin(s: string)
    ensures Concat(Split(s)) == RemoveSeparators(s)
    decreases |s|
  {
    var n := WordLength(s);
    if n == |s| {
      assert s[..n] == s;
      RemoveSeparatorsOfWord(s);
      ConcatCons(s, []);
    } else {
      var rest := SkipSeparators(s[n..]);
      SplitJoin(rest);
      ConcatCons(s[..n], Split(rest));
      RemoveSeparatorsAfterWord(s, n);
    }
  }

  /** The split pieces hold no separator and, joined, give the input's
      non-separator characters in order. */
  lemma SplitSpec(s: string)
    ensures forall t :: t in Split(s) ==> NoSeparator(t)
    ensures Concat(Split(s)) == RemoveSeparators(s)
  {
    SplitWords(s);
    SplitJoin(s);
  }

  lemma {:induction false} TrimAllOfWords(l: seq<string>)
    requires forall t :: t in l ==> NoSeparator(t)
    ensures TrimAll(l) == l
  {
    forall i | 0 <= i < |l| ensures Trim(l[i]) == l[i] {
      assert NoSeparator(l[i]);
      TrimNoWhitespace(l[i]);
    }
  }

  lemma {:induction false} ConcatNonEmpty(l: seq<string>)
    ensures Concat(NonEmpty(l)) == Concat(l)
  {
    if l != [] {
      ConcatNonEmpty(l[1..]);
      var r := (if l[0] != "" then [l[0]] else []) + NonEmpty(l[1..]);
      if l[0] != "" {
        assert r[0] == l[0] && r[1..] == NonEmpty(l[1..]);
      } else {
        assert r == NonEmpty(l[1..]);
      }
    }
  }

  /** Every number the parser returns is non-empty and holds neither
      whitespace nor a comma. */
  lemma ParseTokensAreWords(input: string)
    ensures forall t :: t in ParseTrackingNumbers(input) ==> t != "" && NoSeparator(t)
  {
    SplitSpec(input);
    TrimAllOfWords(Split(input));
  }

  /** The numbers come in input order: joined, they are exactly the input's
      characters other than whitespace and commas. */
  lemma ParseKeepsOrder(input: string)
    ensures Concat(ParseTrackingNumbers(input)) == RemoveSeparators(input)
  {
    SplitSpec(input);
    TrimAllOfWords(Split(input));
    ConcatNonEmpty(Split(input));
  }

  lemma ConcatOfWords(l: seq<string>)
    requires forall t :: t in l ==> t != ""
    ensures l != [] ==> Concat(l) != []
  {
    if l != [] {
      assert l[0] in l;
    }
  }

  lemma {:induction false} RemoveSeparatorsEmpty(s: string)
    ensures RemoveSeparators(s) == [] <==> forall i :: 0 <= i < |s| ==> IsSeparator(s[i])
  {
    if s != [] {
      RemoveSeparatorsEmpty(s[1..]);
      if !IsSeparator(s[0]) {
        assert RemoveSeparators(s)[0] == s[0];
      } else {
        forall i | 1 <= i < |s| ensures s[i] == s[1..][i - 1] {
        }
      }
    }
  }

  /** The parser returns no number exactly when the input is made only of
      separators (the empty input included). */
  lemma ParseEmptyIff(input: string)
    ensures ParseTrackingNumbers(input) == [] <==> forall i :: 0 <= i < |input| ==> IsSeparator(input[i])
  {
    ParseTokensAreWords(input);
    ParseKeepsOrder(input);
    RemoveSeparatorsEmpty(input);
    ConcatOfWords(ParseTrackingNumbers(input));
  }

  /** The word at the front of `s` ends at its first separator. */
  lemma {:induction false} WordLengthAt(s: string, n: nat)
    requires n <= |s| && NoSeparator(s[..n]) && (n == |s| || IsSeparator(s[n]))
    ensures WordLength(s) == n
  {
    if n > 0 {
      assert !IsSeparator(s[..n][0]);
      assert s[1..][..n - 1] == s[..n][1..];
      WordLengthAt(s[1..], n - 1);
    }
  }

  /** Skipping separators across a concatenation goes on into `y` only
      when `x` is all separators. */
  lemma {:induction false} SkipAppend(x: string, y: string)
    ensures SkipSeparators(x + y)
            == if SkipSeparators(x) == [] then SkipSeparators(y) else SkipSeparators(x) + y
  {
    if x == [] {
      assert x + y == y;
    } else if IsSeparator(x[0]) {
      assert (x + y)[1..] == x[1..] + y;
      SkipAppend(x[1..], y);
    } else {
      assert (x + y)[0] == x[0];
    }
  }

  lemma {:induction false} NonEmptyAppend(a: seq<string>, b: seq<string>)
    ensures NonEmpty(a + b) == NonEmpty(a) + NonEmpty(b)
  {
    if a == [] {
      assert a + b == b;
    } else {
      assert (a + b)[0] == a[0] && (a + b)[1..] == a[1..] + b;
      NonEmptyAppend(a[1..], b);
    }
  }

  lemma NonEmptyDropsEmpty(l: seq<string>)
    ensures NonEmpty([[]] + l) == NonEmpty(l)
  {
    assert ([[]] + l)[0] == [] && ([[]] + l)[1..] == l;
  }

  /** A leading separator splits off an empty piece. */
  lemma SplitOfSeparatorHead(s: string)
    requires s != [] && IsSeparator(s[0])
    ensures Split(s) == [[]] + Split(SkipSeparators(s))
  {
    assert WordLength(s) == 0;
    assert s[..0] == [] && s[0..] == s;
  }

  /** Empty pieces aside, a leading run of separators splits off nothing. */
  lemma SplitSkip(s: string)
    ensures NonEmpty(Split(SkipSeparators(s))) == NonEmpty(Split(s))
  {
    if s != [] && IsSeparator(s[0]) {
      SplitOfSeparatorHead(s);
      NonEmptyDropsEmpty(Split(SkipSeparators(s)));
    }
  }

  /** The word at the front is not changed by what follows a separator. */
  lemma WordLengthBeforeSeparator(a: string, c: char, b: string)
    requires IsSeparator(c)
    ensures WordLength(a + [c] + b) == WordLength(a)
    ensures (a + [c] + b)[..WordLength(a)] == a[..WordLength(a)]
  {
    var s, n := a + [c] + b, WordLength(a);
    assert s[..n] == a[..n];
    assert n < |a| ==> s[n] == a[n];
    assert n == |a| ==> s[n] == c;
    WordLengthAt(s, n);
  }

  /** Empty pieces aside, a split is its first word and the split of what
      follows the separators after it. */
  lemma SplitAfterWord(s: string)
    requires WordLength(s) < |s|
    ensures var n := WordLength(s);
            NonEmpty(Split(s)) == NonEmpty([s[..n]]) + NonEmpty(Split(SkipSeparators(s[n..])))
  {
    var n := WordLength(s);
    NonEmptyAppend([s[..n]], Split(SkipSeparators(s[n..])));
  }

  lemma SkipSeparatorHead(c: char, b: string)
    requires IsSeparator(c)
    ensures SkipSeparators([c] + b) == SkipSeparators(b)
  {
    assert ([c] + b)[0] == c && ([c] + b)[1..] == b;
  }

  /** Past the first word of `a`, skipping separators either stops inside
      `a` or runs through the separator `c` into `b`. */
  lemma SkipPastSeparator(a: string, n: nat, c: char, b: string)
    requires n <= |a| && IsSeparator(c)
    ensures var rest := SkipSeparators(a[n..]);
            SkipSeparators((a + [c] + b)[n..]) == if rest == [] then SkipSeparators(b) else rest + [c] + b
  {
    var x, y := a[n..], [c] + b;
    assert (a + [c] + b)[n..] == x + y;
    SkipAppend(x, y);
    SkipSeparatorHead(c, b);
    AppendAssoc(SkipSeparators(x), [c], b);
  }

  /** Empty pieces aside, the split of `a`, a separator and `b` is the first
      word of `a` followed by the split of what comes after it. */
  lemma SplitOfSeparated(a: string, c: char, b: string)
    requires IsSeparator(c)
    ensures var n := WordLength(a);
            var rest := SkipSeparators(a[n..]);
            NonEmpty(Split(a + [c] + b))
              == NonEmpty([a[..n]]) + (if rest == [] then NonEmpty(Split(b)) else NonEmpty(Split(rest + [c] + b)))
  {
    var n := WordLength(a);
    WordLengthBeforeSeparator(a, c, b);
    SplitAfterWord(a + [c] + b);
    SkipPastSeparator(a, n, c, b);
    SplitSkip(b);
  }

  /** Empty pieces aside, a separator-free string splits into itself. */
  lemma SplitOfWhole(a: string)
    requires WordLength(a) == |a|
    ensures NonEmpty(Split(a)) == NonEmpty([a[..WordLength(a)]])
  {
    assert a[..|a|] == a;
  }

  lemma SplitOfEmpty()
    ensures NonEmpty(Split([])) == []
  {
    assert Split([]) == [[]];
  }

  /** A piece ends at a separator: empty pieces aside, the split of `a`, a
      separator and `b` is the split of `a` followed by that of `b`. */
  lemma {:induction false} SplitAtSeparator(a: string, c: char, b: string)
    requires IsSeparator(c)
    ensures NonEmpty(Split(a + [c] + b)) == NonEmpty(Split(a)) + NonEmpty(Split(b))
    decreases |a|
  {
    var n := WordLength(a);
    var rest := SkipSeparators(a[n..]);
    SplitOfSeparated(a, c, b);
    if n == |a| {
      assert rest == [];
      SplitOfWhole(a);
    } else {
      SplitAfterWord(a);
      if rest == [] {
        SplitOfEmpty();
      } else {
        SplitAtSeparator(rest, c, b);
        AppendAssoc(NonEmpty([a[..n]]), NonEmpty(Split(rest)), NonEmpty(Split(b)));
      }
    }
  }

  lemma ParseIsSplit(s: string)
    ensures ParseTrackingNumbers(s) == NonEmpty(Split(s))
  {
    SplitWords(s);
    TrimAllOfWords(Split(s));
  }

  /** A word without separators is one number. */
  lemma WordIsOneToken(w: string)
    requires w != "" && NoSeparator(w)
    ensures ParseTrackingNumbers(w) == [w]
  {
    assert w[..|w|] == w;
    WordLengthAt(w, |w|);
    assert Split(w) == [w];
    ParseIsSplit(w);
    assert [w][0] == w && [w][1..] == [];
    assert NonEmpty([w]) == [w] + NonEmpty([]);
  }

  /** The numbers of `a`, a separator and `b` are those of `a` followed by
      those of `b`: the input is cut at every separator and nowhere else. */
  lemma ParseSplitsAtSeparator(a: string, c: char, b: string)
    requires IsSeparator(c)
    ensures ParseTrackingNumbers(a + [c] + b) == ParseTrackingNumbers(a) + ParseTrackingNumbers(b)
  {
    ParseIsSplit(a);
    ParseIsSplit(b);
    ParseIsSplit(a + [c] + b);
    SplitAtSeparator(a, c, b);
  }

  /** Two words joined by a comma are two numbers. */
  lemma CommaSeparatedWords(a: string, b: string)
    requires a != "" && NoSeparator(a) && b != "" && NoSeparator(b)
    ensures ParseTrackingNumbers(a + "," + b) == [a, b]
  {
    ParseSplitsAtSeparator(a, ',', b);
    WordIsOneToken(a);
    WordIsOneToken(b);
  }

  // ---------------------------------------------------------------------
  // The list helpers
  // ---------------------------------------------------------------------

  /** This page's `getStatusText`: no result, a result without steps
      ('미출고'), then complete or not. */
  function StatusText(r: Option<TrackingResult>): (t: string)
    ensures t == "정보 없음" <==> r.None?
    ensures t == "미출고" <==> r.Some? && !HasSteps(r)
    ensures t == "배송완료" <==> HasSteps(r) && r.value.complete
    ensures t == "배송중" <==> HasSteps(r) && !r.value.complete
  {
    if r.None? then "정보 없음"
    else if !HasSteps(r) then "미출고"
    else if r.value.complete then "배송완료"
    else "배송중"
  }

  /** `getLastTrackingInfo`: the last step, or a placeholder when there is none. */
  function LastTrackingInfo(r: Option<TrackingResult>): (s: Step)
    ensures !HasSteps(r) ==> s.where == "정보 없음" && s.timeString == ""
    ensures HasSteps(r) ==> s == LastStep(r.value) && s in Steps(r.value)
  {
    if !HasSteps(r) then Step("정보 없음", "", None)
    else LastStep(r.value)
  }

  /** The page and the Slack message describe a shipment alike except for a
      result without steps, which the page calls '미출고' and the message
      calls by its completion flag. */
  lemma StatusTextAgreesWithSlack(r: Option<TrackingResult>)
    ensures r.None? || HasSteps(r) ==> StatusText(r) == SlackService.StatusText(r)
    ensures r.Some? && !HasSteps(r) ==> StatusText(r) == "미출고" && SlackService.StatusText(r) != StatusText(r)
  {
  }

  /** The last location the list shows is the one the Slack message reports. */
  lemma LastInfoMatchesSlack(rec: Record)
    requires HasSteps(rec.trackingResult)
    ensures SlackService.LastStepFields(rec)[0].value == LastTrackingInfo(rec.trackingResult).where
  {
  }

  // ---------------------------------------------------------------------
  // handleTrackingSubmit
  // ---------------------------------------------------------------------

  /** An entry of the carrier list (`Code`, `Name`). */
  datatype Carrier = Carrier(code: string, name: string)

  /** The position of the first carrier at or after `from` with `code`, or -1. */
  function CarrierIndex(carriers: seq<Carrier>, code: string, from: nat): (k: int)
    requires from <= |carriers|
    ensures k == -1 || (from <= k < |carriers| && carriers[k].code == code)
    ensures forall j :: from <= j < |carriers| && (k == -1 || j < k) ==> carriers[j].code != code
    decreases |carriers| - from
  {
    if from == |carriers| then -1
    else if carriers[from].code == code then from
    else CarrierIndex(carriers, code, from + 1)
  }

  /** `carriers.find(c => c.Code === code)`: the first carrier with that code. */
  function FindCarrier(carriers: seq<Carrier>, code: string): (r: Option<Carrier>)
    ensures r.None? <==> forall i :: 0 <= i < |carriers| ==> carriers[i].code != code
    ensures r.Some? ==> exists k :: 0 <= k < |carriers| && carriers[k] == r.value && r.value.code == code
                                    && forall j :: 0 <= j < k ==> carriers[j].code != code
  {
    var k := CarrierIndex(carriers, code, 0);
    if k == -1 then None else Some(carriers[k])
  }

  /** `carriers.find(c => c.Code === code)?.Name || code`: the first
      matching carrier's name, or the code itself when there is no match
      or the name is empty. */
  function CarrierName(carriers: seq<Carrier>, code: string): (n: string)
    ensures FindCarrier(carriers, code).Some? && FindCarrier(carriers, code).value.name != ""
            ==> n == FindCarrier(carriers, code).value.name
    ensures FindCarrier(carriers, code).Some? && FindCarrier(carriers, code).value.name == "" ==> n == code
    ensures (forall i :: 0 <= i < |carriers| ==> carriers[i].code != code) ==> n == code
    ensures n == code || exists i :: 0 <= i < |carriers| && carriers[i].code == code && carriers[i].name == n
  {
    var c := FindCarrier(carriers, code);
    if c.Some? && c.value.name != "" then c.value.name else code
  }

  /** The records a submit saves for `numbers`: one per number whose lookup
      succeeded, in input order, stamped with the submit time. */
  function Found(net: Network, apiKey: Option<string>, now: int, carrier: string, name: string,
                 numbers: seq<string>): seq<Record>
  {
    if numbers == [] then []
    else
      Found(net, apiKey, now, carrier, name, numbers[..|numbers| - 1])
        + FoundOne(net, apiKey, now, carrier, name, numbers[|numbers| - 1])
  }

  /** The record saved for one number: none when its lookup fails. */
  function FoundOne(net: Network, apiKey: Option<string>, now: int, carrier: string, name: string,
                    n: string): seq<Record>
  {
    match TrackReply(net, apiKey, now, carrier, n)
    case Fetched(result) => [Record(n, carrier, name, Some(result), now, now)]
    case FetchError(_) => []
  }

  /** Every saved record is one of the submitted numbers under the selected
      carrier, with the fetched result and both timestamps set to the submit
      time; at most one record per number is saved, none without an API key,
      and one for every number when every lookup succeeds. */
  lemma {:induction false} FoundShape(net: Network, apiKey: Option<string>, now: int, carrier: string, name: string,
                                      numbers: seq<string>)
    ensures |Found(net, apiKey, now, carrier, name, numbers)| <= |numbers|
    ensures forall x :: x in Found(net, apiKey, now, carrier, name, numbers) ==>
              && x.trackingNumber in numbers && x.carrierCode == carrier && x.carrierName == name
              && x.trackingResult.Some? && x.createdAt == now && x.lastUpdated == now
              && TrackReply(net, apiKey, now, carrier, x.trackingNumber) == Fetched(x.trackingResult.value)
    ensures !HasKey(apiKey) ==> Found(net, apiKey, now, carrier, name, numbers) == []
    ensures (forall i :: 0 <= i < |numbers| ==> TrackReply(net, apiKey, now, carrier, numbers[i]).Fetched?)
            ==> |Found(net, apiKey, now, carrier, name, numbers)| == |numbers|
  {
    if numbers != [] {
      var init := numbers[..|numbers| - 1];
      FoundShape(net, apiKey, now, carrier, name, init);
      assert forall t :: t in init ==> t in numbers;
      if forall i :: 0 <= i < |numbers| ==> TrackReply(net, apiKey, now, carrier, numbers[i]).Fetched? {
        assert forall i :: 0 <= i < |init| ==> init[i] == numbers[i];
      }
    }
  }

  /** The numbers whose lookup succeeds, in input order. */
  function FetchedNumbers(net: Network, apiKey: Option<string>, now: int, carrier: string,
                          numbers: seq<string>): (r: seq<string>)
    ensures forall t :: t in r <==> t in numbers && TrackReply(net, apiKey, now, carrier, t).Fetched?
  {
    if numbers == [] then []
    else
      var last := numbers[|numbers| - 1];
      FetchedNumbers(net, apiKey, now, carrier, numbers[..|numbers| - 1])
        + (if TrackReply(net, apiKey, now, carrier, last).Fetched? then [last] else [])
  }

  /** A submit saves exactly the numbers whose lookup succeeds, in input
      order, the i-th of them with its own fetched answer. */
  lemma {:induction false} FoundIsFetchedInOrder(net: Network, apiKey: Option<string>, now: int, carrier: string,
                                                 name: string, numbers: seq<string>)
    ensures var found, fetched := Found(net, apiKey, now, carrier, name, numbers),
                                  FetchedNumbers(net, apiKey, now, carrier, numbers);
            && |found| == |fetched|
            && forall i :: 0 <= i < |found| ==>
                 && TrackReply(net, apiKey, now, carrier, fetched[i]).Fetched?
                 && found[i] == Record(fetched[i], carrier, name,
                                       Some(TrackReply(net, apiKey, now, carrier, fetched[i]).result), now, now)
  {
    if numbers != [] {
      var init, last := numbers[..|numbers| - 1], numbers[|numbers| - 1];
      FoundIsFetchedInOrder(net, apiKey, now, carrier, name, init);
      var found0, fetched0 := Found(net, apiKey, now, carrier, name, init), FetchedNumbers(net, apiKey, now, carrier, init);
      var found, fetched := Found(net, apiKey, now, carrier, name, numbers), FetchedNumbers(net, apiKey, now, carrier, numbers);
      assert found == found0 + FoundOne(net, apiKey, now, carrier, name, last);
      assert fetched == fetched0 + (if TrackReply(net, apiKey, now, carrier, last).Fetched? then [last] else []);
    }
  }

  /** The lookups a submit makes: one per number, in input order, when an
      API key is stored. */
  function SubmitQueries(apiKey: Option<string>, carrier: string, numbers: seq<string>): (q: seq<Request>)
    ensures HasKey(apiKey) ==> |q| == |numbers|
    ensures !HasKey(apiKey) ==> q == []
  {
    if numbers == [] then []
    else SubmitQueries(apiKey, carrier, numbers[..|numbers| - 1])
         + QueryLog(apiKey, carrier, numbers[|numbers| - 1])
  }

  /** The tracking entry after `saveTrackingData` of each of `xs` in turn. */
  function SaveAll(e: Entry<seq<Record>>, writable: bool, xs: seq<Record>): Entry<seq<Record>> {
    if xs == [] then e
    else
      var before := SaveAll(e, writable, xs[..|xs| - 1]);
      if writable then Saved(Records(before) + [xs[|xs| - 1]]) else before
  }

  /** Saving appends the records after the stored ones, in order, and leaves
      the entry alone when storage refuses writes. */
  lemma {:induction false} SaveAllAppends(e: Entry<seq<Record>>, writable: bool, xs: seq<Record>)
    ensures writable ==> Records(SaveAll(e, writable, xs)) == Records(e) + xs
    ensures !writable ==> SaveAll(e, writable, xs) == e
  {
    if xs != [] {
      var init := xs[..|xs| - 1];
      SaveAllAppends(e, writable, init);
      assert xs == init + [xs[|xs| - 1]];
    }
  }

  /** One more number: its record, when its lookup succeeds, comes after
      the earlier records. */
  lemma FoundStep(net: Network, apiKey: Option<string>, now: int, carrier: string, name: string,
                  numbers: seq<string>, i: nat)
    requires i < |numbers|
    ensures Found(net, apiKey, now, carrier, name, numbers[..i + 1])
            == Found(net, apiKey, now, carrier, name, numbers[..i]) + FoundOne(net, apiKey, now, carrier, name, numbers[i])
  {
    assert numbers[..i + 1][..i] == numbers[..i];
  }

  /** One more number: its lookup is added after the earlier ones. */
  lemma SubmitQueriesStep(apiKey: Option<string>, carrier: string, numbers: seq<string>, i: nat)
    requires i < |numbers|
    ensures SubmitQueries(apiKey, carrier, numbers[..i + 1])
            == SubmitQueries(apiKey, carrier, numbers[..i]) + QueryLog(apiKey, carrier, numbers[i])
  {
    assert numbers[..i + 1][..i] == numbers[..i];
  }

  lemma SaveOneMore(e: Entry<seq<Record>>, writable: bool, xs: seq<Record>, more: seq<Record>)
    requires |more| <= 1
    ensures SaveAll(e, writable, xs + more)
            == if more == [] || !writable then SaveAll(e, writable, xs)
               else Saved(Records(SaveAll(e, writable, xs)) + more)
  {
    if more == [] {
      assert xs + more == xs;
    } else {
      assert (xs + more)[..|xs + more| - 1] == xs;
      assert [(xs + more)[|xs + more| - 1]] == more;
    }
  }

  /** One pass of the submit loop in terms of the stored entry: what the
      pass stores keeps it equal to saving the records found so far. */
  lemma SaveLoopStep(net: Network, apiKey: Option<string>, now: int, carrier: string, name: string,
                     numbers: seq<string>, i: nat, e0: Entry<seq<Record>>, writable: bool,
                     before: Entry<seq<Record>>, after: Entry<seq<Record>>)
    requires i < |numbers|
    requires before == SaveAll(e0, writable, Found(net, apiKey, now, carrier, name, numbers[..i]))
    requires var more := FoundOne(net, apiKey, now, carrier, name, numbers[i]);
             after == if more == [] || !writable then before else Saved(Records(before) + more)
    ensures after == SaveAll(e0, writable, Found(net, apiKey, now, carrier, name, numbers[..i + 1]))
  {
    FoundStep(net, apiKey, now, carrier, name, numbers, i);
    SaveOneMore(e0, writable, Found(net, apiKey, now, carrier, name, numbers[..i]),
                FoundOne(net, apiKey, now, carrier, name, numbers[i]));
  }

  /** One pass of the submit loop in terms of the request log. */
  lemma QueryLoopStep(apiKey: Option<string>, carrier: string, numbers: seq<string>, i: nat,
                      log0: seq<Request>, logBefore: seq<Request>, logAfter: seq<Request>)
    requires i < |numbers|
    requires logBefore == log0 + SubmitQueries(apiKey, carrier, numbers[..i])
    requires logAfter == logBefore + QueryLog(apiKey, carrier, numbers[i])
    ensures logAfter == log0 + SubmitQueries(apiKey, carrier, numbers[..i + 1])
  {
    SubmitQueriesStep(apiKey, carrier, numbers, i);
    assert logAfter == log0 + (SubmitQueries(apiKey, carrier, numbers[..i]) + QueryLog(apiKey, carrier, numbers[i]));
  }

  /** One pass of the loop of `handleTrackingSubmit`: look the number up and
      save its record when the lookup succeeds; a failed lookup is skipped. */
  method LookUpOne(ls: LocalStorage, net: Network, now: int, trackingNumber: string,
                   carrier: string, carrierName: string)
    modifies ls`trackingEntry, net`requests
    ensures var more := FoundOne(net, ls.apiKey, now, carrier, carrierName, trackingNumber);
            ls.trackingEntry == if more == [] || !ls.writable then old(ls.trackingEntry)
                                else Saved(Records(old(ls.trackingEntry)) + more)
    ensures net.requests == old(net.requests) + QueryLog(ls.apiKey, carrier, trackingNumber)
  {
    var reply := TrackDelivery(ls, net, now, carrier, trackingNumber);
    match reply {
      case Fetched(response) =>
        var trackingData := Record(trackingNumber, carrier, carrierName, Some(response), now, now);
        var _ := SaveTrackingData(ls, trackingData);
      case FetchError(_) =>
    }
  }

  /** The loop of `handleTrackingSubmit`: look up each number in turn and
      save a record for each lookup that succeeds. */
  method LookUpAndSave(ls: LocalStorage, net: Network, now: int, numbers: seq<string>,
                       carrier: string, carrierName: string)
    modifies ls`trackingEntry, net`requests
    ensures ls.trackingEntry == SaveAll(old(ls.trackingEntry), ls.writable, Found(net, ls.apiKey, now, carrier, carrierName, numbers))
    ensures net.requests == old(net.requests) + SubmitQueries(ls.apiKey, carrier, numbers)
  {
    ghost var entry0, requests0 := ls.trackingEntry, net.requests;
    for i := 0 to |numbers|
      invariant ls.trackingEntry == SaveAll(entry0, ls.writable, Found(net, ls.apiKey, now, carrier, carrierName, numbers[..i]))
      invariant net.requests == requests0 + SubmitQueries(ls.apiKey, carrier, numbers[..i])
    {
      ghost var entryBefore, logBefore := ls.trackingEntry, net.requests;
      LookUpOne(ls, net, now, numbers[i], carrier, carrierName);
      SaveLoopStep(net, ls.apiKey, now, carrier, carrierName, numbers, i, entry0, ls.writable,
                   entryBefore, ls.trackingEntry);
      QueryLoopStep(ls.apiKey, carrier, numbers, i, requests0, logBefore, net.requests);
    }
    assert numbers[..|numbers|] == numbers;
  }

  /** The page state `handleTrackingSubmit` reads and writes. */
  class Page {
    var carriers: seq<Carrier>
    var selectedCarrier: string
    var trackingNumbers: string
    var trackingList: seq<Record>
    var loading: bool
    var error: string

    constructor (list: seq<Carrier>)
      ensures carriers == list && selectedCarrier == "" && trackingNumbers == ""
      ensures trackingList == [] && !loading && error == ""
    {
      carriers, selectedCarrier, trackingNumbers := list, "", "";
      trackingList, loading, error := [], false, "";
    }

    /** `handleTrackingSubmit`: reject an input without numbers, then a
        missing carrier; otherwise look up each number in order, save each
        success, reload the list and clear the input. */
    method HandleTrackingSubmit(ls: LocalStorage, net: Network, now: int)
      modifies this, ls`trackingEntry, net`requests
      ensures carriers == old(carriers) && selectedCarrier == old(selectedCarrier)
      ensures ParseTrackingNumbers(old(trackingNumbers)) == [] ==>
                && error == NoNumbersMessage && trackingNumbers == old(trackingNumbers) && loading == old(loading)
                && trackingList == old(trackingList)
                && ls.trackingEntry == old(ls.trackingEntry) && net.requests == old(net.requests)
      ensures ParseTrackingNumbers(old(trackingNumbers)) != [] && selectedCarrier == "" ==>
                && error == NoCarrierMessage && trackingNumbers == old(trackingNumbers) && loading == old(loading)
                && trackingList == old(trackingList)
                && ls.trackingEntry == old(ls.trackingEntry) && net.requests == old(net.requests)
      ensures ParseTrackingNumbers(old(trackingNumbers)) != [] && selectedCarrier != "" ==>
                var numbers := ParseTrackingNumbers(old(trackingNumbers));
                var saved := Found(net, ls.apiKey, now, selectedCarrier, CarrierName(carriers, selectedCarrier), numbers);
                && error == "" && trackingNumbers == "" && !loading
                && ls.trackingEntry == SaveAll(old(ls.trackingEntry), ls.writable, saved)
                && trackingList == GetTrackingData(ls)
                && net.requests == old(net.requests) + SubmitQueries(ls.apiKey, selectedCarrier, numbers)
    {
      var numbers := ParseTrackingNumbers(trackingNumbers);
      if |numbers| == 0 {
        error := NoNumbersMessage;
        return;
      }
      if selectedCarrier == "" {
        error := NoCarrierMessage;
        return;
      }
      loading := true;
      error := "";
      var carrierName := CarrierName(carriers, selectedCarrier);
      LookUpAndSave(ls, net, now, numbers, selectedCarrier, carrierName);
      trackingList := GetTrackingData(ls);
      trackingNumbers := "";
      loading := false;
    }
  }
}
