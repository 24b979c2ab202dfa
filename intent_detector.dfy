/** Classifies a chat message as a request for an explanation, for code, or
    neither, from keywords in its lower-cased text. */
module IntentDetector {
  import opened Wrappers
  import opened JavaText

  datatype ChatIntent = EXPLAIN | CODE | MIXED

  /** Phrases anywhere in the text that ask for code. */
  const CODE_MARKERS: seq<Str> :=
    ["write awk", "awk script", "generate awk", "show awk code",
     "plan, code, tests, notes", "plan/code/tests/notes"]

  /** Openings of the (untrimmed) text that ask for code. */
  const CODE_OPENINGS: seq<Str> := ["plan:", "code:"]

  /** Phrases that ask for an explanation. */
  const EXPLAIN_MARKERS: seq<Str> :=
    ["explain", "what does", "what is", "how does this work", "how does", "help me understand"]

  predicate HasCodeMarker(m: Str) {
    (exists k | 0 <= k < |CODE_MARKERS| :: Contains(m, CODE_MARKERS[k]))
    || (exists k | 0 <= k < |CODE_OPENINGS| :: StartsWith(m, CODE_OPENINGS[k]))
  }

  predicate HasExplainMarker(m: Str) {
    exists k | 0 <= k < |EXPLAIN_MARKERS| :: Contains(m, EXPLAIN_MARKERS[k])
  }

  lemma CodeMarkersSpelled(m: Str)
    ensures HasCodeMarker(m) <==>
      Contains(m, "write awk") || Contains(m, "awk script") || Contains(m, "generate awk")
      || Contains(m, "show awk code") || Contains(m, "plan, code, tests, notes")
      || Contains(m, "plan/code/tests/notes") || StartsWith(m, "plan:") || StartsWith(m, "code:")
  {
    assert CODE_MARKERS[0] == "write awk" && CODE_MARKERS[1] == "awk script";
    assert CODE_MARKERS[2] == "generate awk" && CODE_MARKERS[3] == "show awk code";
    assert CODE_MARKERS[4] == "plan, code, tests, notes" && CODE_MARKERS[5] == "plan/code/tests/notes";
    assert CODE_OPENINGS[0] == "plan:" && CODE_OPENINGS[1] == "code:";
  }

  lemma ExplainMarkersSpelled(m: Str)
    ensures HasExplainMarker(m) <==>
      Contains(m, "explain") || Contains(m, "what does") || Contains(m, "what is")
      || Contains(m, "how does this work") || Contains(m, "how does") || Contains(m, "help me understand")
  {
    assert EXPLAIN_MARKERS[0] == "explain" && EXPLAIN_MARKERS[1] == "what does";
    assert EXPLAIN_MARKERS[2] == "what is" && EXPLAIN_MARKERS[3] == "how does this work";
    assert EXPLAIN_MARKERS[4] == "how does" && EXPLAIN_MARKERS[5] == "help me understand";
  }

  /** `detectIntent`: blank text is MIXED; otherwise a code marker wins, then
      an explanation marker, else MIXED. */
  function DetectIntent(message: Option<Str>): (r: ChatIntent)
    ensures NullOrBlank(message) ==> r == MIXED
    ensures !NullOrBlank(message) ==> (r == CODE <==> HasCodeMarker(Lower(message.value)))
    ensures !NullOrBlank(message) ==>
      (r == EXPLAIN <==> !HasCodeMarker(Lower(message.value)) && HasExplainMarker(Lower(message.value)))
  {
    if NullOrBlank(message) then MIXED
    else
      var m := Lower(message.value);
      CodeMarkersSpelled(m);
      ExplainMarkersSpelled(m);
      if Contains(m, "write awk") then CODE
      else if Contains(m, "awk script") then CODE
      else if Contains(m, "generate awk") then CODE
      else if Contains(m, "show awk code") then CODE
      else if Contains(m, "plan, code, tests, notes") then CODE
      else if Contains(m, "plan/code/tests/notes") then CODE
      else if StartsWith(m, "plan:") || StartsWith(m, "code:") then CODE
      else
        var explain := Contains(m, "explain") || Contains(m, "what does") || Contains(m, "what is")
          || Contains(m, "how does this work") || Contains(m, "how does")
          || Contains(m, "help me understand");
        if explain then EXPLAIN else MIXED
  }

  /** Lower-casing never turns a non-blank char blank or back. */
  lemma LowerKeepsBlank(s: Str)
    ensures IsBlank(Lower(s)) <==> IsBlank(s)
  {
    if IsBlank(Lower(s)) {
      forall k | 0 <= k < |s| ensures IsWhitespace(s[k]) {
        assert IsWhitespace(Lower(s)[k]);
      }
    }
  }

  /** Case does not matter: a message and its lower-cased form are
      classified alike. */
  lemma CaseInsensitive(s: Str)
    ensures DetectIntent(Some(s)) == DetectIntent(Some(Lower(s)))
  {
    LowerKeepsBlank(s);
    LowerIdempotent(s);
  }
}
