/** The intent classifiers of the SMS parser (the SMSParsingExtensions
    class): prefix stripping, capitalisation and the four intent tests. */
module SmsParsing {
  import opened Wrappers
  import opened Text

  /** What RemoveIfStartsWith hands back: its boolean result and the value of
      its `processed` out-parameter. */
  datatype Match = Match(found: bool, text: string)

  /** The text left once `prefix` is stripped: the whole input when it is
      exactly the prefix, otherwise everything after the prefix and after ONE
      more character, whatever that character is. */
  function AfterPrefix(raw: string, prefix: string): (r: string)
    requires StartsWith(raw, prefix)
    ensures raw == prefix ==> r == raw
    ensures raw != prefix ==> |r| == |raw| - |prefix| - 1 && r == raw[|raw| - |r|..]
  {
    if |raw| == |prefix| then raw else raw[|prefix| + 1..]
  }

  /** The value RemoveIfStartsWith computes: the first prefix of `toRemove`,
      in list order, that starts `raw` decides the result. */
  function FirstPrefixRemoval(raw: string, toRemove: seq<string>): (r: Match)
    ensures r.found <==> exists i :: 0 <= i < |toRemove| && StartsWith(raw, toRemove[i])
    ensures !r.found ==> r.text == raw
    decreases |toRemove|
  {
    if toRemove == [] then Match(false, raw)
    else if StartsWith(raw, toRemove[0]) then Match(true, AfterPrefix(raw, toRemove[0]))
    else
      assert forall i :: 1 <= i < |toRemove| ==> toRemove[i] == toRemove[1..][i - 1];
      FirstPrefixRemoval(raw, toRemove[1..])
  }

  /** The first listed prefix that matches decides what is stripped; later
      prefixes, even longer ones, are never tried. */
  lemma {:induction false} FirstPrefixDecides(raw: string, toRemove: seq<string>, k: nat)
    requires k < |toRemove| && StartsWith(raw, toRemove[k])
    requires forall i :: 0 <= i < k ==> !StartsWith(raw, toRemove[i])
    ensures FirstPrefixRemoval(raw, toRemove) == Match(true, AfterPrefix(raw, toRemove[k]))
  {
    if k > 0 {
      FirstPrefixDecides(raw, toRemove[1..], k - 1);
    }
  }

  /** string.RemoveIfStartsWith: the foreach loop over `toRemove` that
      returns at the first prefix which starts `raw`. */
  method RemoveIfStartsWith(raw: string, toRemove: seq<string>) returns (found: bool, processed: string)
    ensures Match(found, processed) == FirstPrefixRemoval(raw, toRemove)
    ensures found <==> exists i :: 0 <= i < |toRemove| && StartsWith(raw, toRemove[i])
    ensures !found ==> processed == raw
  {
    for k := 0 to |toRemove|
      invariant forall i :: 0 <= i < k ==> !StartsWith(raw, toRemove[i])
    {
      var remove := toRemove[k];
      if StartsWith(raw, remove) {
        if |raw| == |remove| {
          processed := raw;
        } else {
          processed := raw[|remove| + 1..];
        }
        FirstPrefixDecides(raw, toRemove, k);
        return true, processed;
      }
    }
    return false, raw;
  }

  /** string.CapitalizeFirstLetter: Substring(0, 1) throws on the empty
      string, so callers must pass a non-empty one. */
  function CapitalizeFirstLetter(input: string): (r: string)
    requires |input| > 0
    ensures |r| == |input| && r[1..] == input[1..]
    ensures !IsLowerAscii(r[0]) && LowerChar(r[0]) == LowerChar(input[0])
  {
    [UpperChar(input[0])] + input[1..]
  }

  const ReminderPrefix := "remind me"
  const ReminderLinks: seq<string> := ["to", "that"]
  const LookupPrefixes: seq<string> := ["my reminder", "reminder", "what are my reminder"]
  const HelpPrefixes: seq<string> := ["how", "how to", "how do"]
  const ResetPasswordPrefix := "reset password"

  /** The message as the reminder test sees it: lower-cased, then trimmed. */
  function Normalised(message: string): string
  {
    Trim(Lower(message))
  }

  /** string.IsReminderIntent, with its `reminder` out-parameter as the
      Match text; Thrown when CapitalizeFirstLetter meets an empty remainder. */
  function IsReminderIntent(message: string): (r: Outcome<Match>)
    ensures (r.Thrown? || r.value.found) <==> StartsWith(Normalised(message), ReminderPrefix)
    ensures r.Returned? && !r.value.found ==> r.value.text == message
    ensures r.Returned? && r.value.found ==> |r.value.text| > 0 && !IsLowerAscii(r.value.text[0])
  {
    var msg := Normalised(message);
    var first := FirstPrefixRemoval(msg, [ReminderPrefix]);
    if first.found then
      var second := FirstPrefixRemoval(first.text, ReminderLinks);
      if second.text == [] then Thrown
      else Returned(Match(true, CapitalizeFirstLetter(second.text)))
    else
      Returned(Match(false, message))
  }

  /** string.IsLookupIntent. */
  function IsLookupIntent(message: string): bool
  {
    FirstPrefixRemoval(Lower(message), LookupPrefixes).found
  }

  /** The lookup test says yes iff the lower-cased (untrimmed) message starts
      with one of the three lookup phrases. */
  lemma IsLookupIntentPrefixes(message: string)
    ensures IsLookupIntent(message) <==>
              || StartsWith(Lower(message), "my reminder")
              || StartsWith(Lower(message), "reminder")
              || StartsWith(Lower(message), "what are my reminder")
  {
    assert LookupPrefixes[0] == "my reminder" && LookupPrefixes[1] == "reminder";
    assert LookupPrefixes[2] == "what are my reminder";
  }

  /** string.IsHelpIntent. */
  function IsHelpIntent(message: string): bool
  {
    FirstPrefixRemoval(Lower(message), HelpPrefixes).found
  }

  /** "how to" and "how do" both begin with "how", so the help test says yes
      to every message whose lower-cased form starts with "how". */
  lemma IsHelpIntentAcceptsHow(message: string)
    ensures IsHelpIntent(message) <==> StartsWith(Lower(message), "how")
  {
    var lowered := Lower(message);
    assert HelpPrefixes[0] == "how";
    if IsHelpIntent(message) {
      var i :| 0 <= i < |HelpPrefixes| && StartsWith(lowered, HelpPrefixes[i]);
      assert StartsWith(HelpPrefixes[i], "how");
      StartsWithTransitive(lowered, HelpPrefixes[i], "how");
    }
  }

  /** string.IsResetPasswordIntent. */
  function IsResetPasswordIntent(message: string): bool
  {
    FirstPrefixRemoval(Lower(message), [ResetPasswordPrefix]).found
  }

  /** The reset test says yes iff the lower-cased message starts with
      "reset password". */
  lemma IsResetPasswordIntentPrefix(message: string)
    ensures IsResetPasswordIntent(message) <==> StartsWith(Lower(message), ResetPasswordPrefix)
  {
    assert [ResetPasswordPrefix][0] == ResetPasswordPrefix;
  }

  /** Stripping "to" or "that" leaves a suffix of the text. */
  lemma LinkRemovalIsSuffix(rest: string)
    ensures var t := FirstPrefixRemoval(rest, ReminderLinks).text;
            |t| <= |rest| && t == rest[|rest| - |t|..]
  {
    if StartsWith(rest, ReminderLinks[0]) {
      FirstPrefixDecides(rest, ReminderLinks, 0);
    } else if StartsWith(rest, ReminderLinks[1]) {
      FirstPrefixDecides(rest, ReminderLinks, 1);
    } else {
      assert rest[|rest| - |rest|..] == rest;
    }
  }

  lemma SuffixOfSuffix(s: string, mid: string, t: string)
    requires |mid| <= |s| && mid == s[|s| - |mid|..]
    requires |t| <= |mid| && t == mid[|mid| - |t|..]
    ensures t == s[|s| - |t|..]
  {
    assert forall i :: 0 <= i < |t| ==> t[i] == mid[|mid| - |t| + i] == s[|s| - |t| + i];
  }

  /** A recognised reminder's description is a suffix of the normalised
      message with its first letter capitalised. */
  lemma ReminderIsCapitalisedSuffix(message: string)
    requires IsReminderIntent(message).Returned? && IsReminderIntent(message).value.found
    ensures var msg := Normalised(message);
            var text := IsReminderIntent(message).value.text;
            |text| <= |msg| && text == CapitalizeFirstLetter(msg[|msg| - |text|..])
  {
    var msg := Normalised(message);
    DescriptionIsSuffix(msg);
    assert IsReminderIntent(message).value.text ==
           CapitalizeFirstLetter(FirstPrefixRemoval(FirstPrefixRemoval(msg, [ReminderPrefix]).text, ReminderLinks).text);
  }

  /** After "remind me" and then a link word are removed, what is left is a
      suffix of the normalised message. */
  lemma DescriptionIsSuffix(msg: string)
    requires StartsWith(msg, ReminderPrefix)
    ensures var first := FirstPrefixRemoval(msg, [ReminderPrefix]);
            var t := FirstPrefixRemoval(first.text, ReminderLinks).text;
            |t| <= |msg| && t == msg[|msg| - |t|..]
  {
    var first := FirstPrefixRemoval(msg, [ReminderPrefix]);
    assert [ReminderPrefix][0] == ReminderPrefix;
    FirstPrefixDecides(msg, [ReminderPrefix], 0);
    assert first.text == AfterPrefix(msg, ReminderPrefix);
    LinkRemovalIsSuffix(first.text);
    SuffixOfSuffix(msg, first.text, FirstPrefixRemoval(first.text, ReminderLinks).text);
  }

  /** Exactly when the reminder test throws: the normalised message is
      "remind me" followed by one character, or by a separator and "to" or
      "that" and one more character, so that nothing is left to capitalise. */
  lemma ReminderThrowsExactly(message: string)
    ensures var msg := Normalised(message);
            IsReminderIntent(message).Thrown? <==>
              StartsWith(msg, ReminderPrefix) &&
              (|msg| == 10 ||
               (|msg| == 13 && msg[10..12] == "to") ||
               (|msg| == 15 && msg[10..14] == "that"))
  {
    var msg := Normalised(message);
    if StartsWith(msg, ReminderPrefix) {
      assert [ReminderPrefix][0] == ReminderPrefix;
      FirstPrefixDecides(msg, [ReminderPrefix], 0);
      var rest := AfterPrefix(msg, ReminderPrefix);
      if |msg| > 9 {
        assert rest == msg[10..];
        assert |rest| >= 2 ==> rest[..2] == msg[10..12];
        assert |rest| >= 4 ==> rest[..4] == msg[10..14];
        if StartsWith(rest, "to") {
          FirstPrefixDecides(rest, ReminderLinks, 0);
          assert |msg| >= 14 ==> msg[10..14][1] == msg[11] == 'o';
        } else if StartsWith(rest, "that") {
          FirstPrefixDecides(rest, ReminderLinks, 1);
        }
      } else {
        assert msg == ReminderPrefix;
      }
    }
  }

  /** "remind me" alone is accepted and gives the description "Remind me";
      "remind me to" alone gives "To". */
  lemma ReminderExactPrefixes(message: string)
    ensures Normalised(message) == "remind me" ==>
              IsReminderIntent(message) == Returned(Match(true, "Remind me"))
    ensures Normalised(message) == "remind me to" ==>
              IsReminderIntent(message) == Returned(Match(true, "To"))
  {
    var msg := Normalised(message);
    assert [ReminderPrefix][0] == ReminderPrefix;
    if msg == "remind me" {
      FirstPrefixDecides(msg, [ReminderPrefix], 0);
      assert msg[0] == 'r' && ReminderLinks[0][0] == 't' && ReminderLinks[1][0] == 't';
      MismatchBlocksStartsWith(msg, ReminderLinks[0], 0);
      MismatchBlocksStartsWith(msg, ReminderLinks[1], 0);
      assert FirstPrefixRemoval(msg, ReminderLinks) == Match(false, msg);
      assert UpperChar('r') == 'R';
      assert CapitalizeFirstLetter(msg) == "Remind me";
    } else if msg == "remind me to" {
      FirstPrefixDecides(msg, [ReminderPrefix], 0);
      assert AfterPrefix(msg, ReminderPrefix) == "to";
      FirstPrefixDecides("to", ReminderLinks, 0);
      assert UpperChar('t') == 'T';
      assert CapitalizeFirstLetter("to") == "To";
    }
  }

  /** The description of a recognised reminder. With normalised message
      "remind me" + c + d, where d is non-empty and starts with neither "to"
      nor "that", the description is d capitalised. With "remind me" + c +
      link + c' + d, link being "to" or "that" and d non-empty, it is d
      capitalised: one separator character after each prefix is dropped,
      whatever it is. With "remind me" + c + link and nothing after the link
      word, the exact match keeps it, and the description is the link word
      capitalised ("That", "To"). */
  lemma ReminderDescription(message: string, c: char, link: string, c2: char, d: string)
    ensures Normalised(message) == ReminderPrefix + [c] + d && d != [] &&
            !StartsWith(d, "to") && !StartsWith(d, "that") ==>
              IsReminderIntent(message) == Returned(Match(true, CapitalizeFirstLetter(d)))
    ensures Normalised(message) == ReminderPrefix + [c] + link + [c2] + d && link in ReminderLinks && d != [] ==>
              IsReminderIntent(message) == Returned(Match(true, CapitalizeFirstLetter(d)))
    ensures Normalised(message) == ReminderPrefix + [c] + link && link in ReminderLinks ==>
              IsReminderIntent(message) == Returned(Match(true, CapitalizeFirstLetter(link)))
  {
    var msg := Normalised(message);
    if msg == ReminderPrefix + [c] + d && d != [] && !StartsWith(d, "to") && !StartsWith(d, "that") {
      DescriptionWithoutLink(msg, c, d);
    }
    if msg == ReminderPrefix + [c] + link + [c2] + d && link in ReminderLinks && d != [] {
      DescriptionAfterLink(msg, c, link, c2, d);
    }
    if msg == ReminderPrefix + [c] + link && link in ReminderLinks {
      DescriptionIsLink(msg, c, link);
    }
  }

  /** The two removals on a normalised message "remind me" + c + d, where d
      starts with no link word: d is left. */
  lemma DescriptionWithoutLink(msg: string, c: char, d: string)
    requires msg == ReminderPrefix + [c] + d && !StartsWith(d, "to") && !StartsWith(d, "that")
    ensures FirstPrefixRemoval(msg, [ReminderPrefix]) == Match(true, d)
    ensures FirstPrefixRemoval(d, ReminderLinks) == Match(false, d)
  {
    assert [ReminderPrefix][0] == ReminderPrefix;
    assert ReminderLinks[0] == "to" && ReminderLinks[1] == "that";
    assert msg[..|ReminderPrefix|] == ReminderPrefix;
    FirstPrefixDecides(msg, [ReminderPrefix], 0);
    assert AfterPrefix(msg, ReminderPrefix) == d;
  }

  /** The two removals on "remind me" + c + link + c2 + d: d is left. */
  lemma DescriptionAfterLink(msg: string, c: char, link: string, c2: char, d: string)
    requires msg == ReminderPrefix + [c] + link + [c2] + d && link in ReminderLinks
    ensures FirstPrefixRemoval(msg, [ReminderPrefix]) == Match(true, link + [c2] + d)
    ensures FirstPrefixRemoval(link + [c2] + d, ReminderLinks) == Match(true, d)
  {
    assert [ReminderPrefix][0] == ReminderPrefix;
    assert ReminderLinks[0] == "to" && ReminderLinks[1] == "that";
    assert msg[..|ReminderPrefix|] == ReminderPrefix;
    FirstPrefixDecides(msg, [ReminderPrefix], 0);
    var rest := link + [c2] + d;
    assert AfterPrefix(msg, ReminderPrefix) == rest;
    assert rest[..|link|] == link;
    if link == "to" {
      FirstPrefixDecides(rest, ReminderLinks, 0);
    } else {
      assert rest[1] == 'h';
      MismatchBlocksStartsWith(rest, ReminderLinks[0], 1);
      FirstPrefixDecides(rest, ReminderLinks, 1);
    }
    assert AfterPrefix(rest, link) == d;
  }

  /** The two removals on "remind me" + c + link: the exact link word is
      kept whole. */
  lemma DescriptionIsLink(msg: string, c: char, link: string)
    requires msg == ReminderPrefix + [c] + link && link in ReminderLinks
    ensures FirstPrefixRemoval(msg, [ReminderPrefix]) == Match(true, link)
    ensures FirstPrefixRemoval(link, ReminderLinks) == Match(true, link)
  {
    assert [ReminderPrefix][0] == ReminderPrefix;
    assert ReminderLinks[0] == "to" && ReminderLinks[1] == "that";
    assert msg[..|ReminderPrefix|] == ReminderPrefix;
    FirstPrefixDecides(msg, [ReminderPrefix], 0);
    assert AfterPrefix(msg, ReminderPrefix) == link;
    if link == "to" {
      FirstPrefixDecides(link, ReminderLinks, 0);
    } else {
      MismatchBlocksStartsWith(link, ReminderLinks[0], 1);
      FirstPrefixDecides(link, ReminderLinks, 1);
    }
  }

  /** The worked example: "Remind me to buy milk" records "Buy milk". */
  lemma ReminderDescriptionExample()
    ensures IsReminderIntent("Remind me to buy milk") == Returned(Match(true, "Buy milk"))
  {
    NormalisedExample();
    assert "remind me to buy milk" == ReminderPrefix + [' '] + "to" + [' '] + "buy milk";
    ReminderDescription("Remind me to buy milk", ' ', "to", ' ', "buy milk");
    CapitalizeExample();
  }

  lemma NormalisedExample()
    ensures Normalised("Remind me to buy milk") == "remind me to buy milk"
  {
    LowerExample();
    TrimExample();
  }

  lemma LowerExample()
    ensures Lower("Remind me to buy milk") == "remind me to buy milk"
  {
    assert LowerChar('R') == 'r';
  }

  lemma TrimExample()
    ensures Trim("remind me to buy milk") == "remind me to buy milk"
  {
    var lowered := "remind me to buy milk";
    assert lowered[0] == 'r' && lowered[|lowered| - 1] == 'k';
  }

  lemma CapitalizeExample()
    ensures CapitalizeFirstLetter("buy milk") == "Buy milk"
  {
    assert UpperChar('b') == 'B';
  }
}
