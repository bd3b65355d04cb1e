/** The email drafting page's rules: the recipient address check, adding
    and removing recipients, the guards of generating a draft, the draft
    each tone produces, and the guards of saving, exporting and copying it.
    The page's React state is a `DraftState` value; a handler returns the
    next state and the toast it raises. The two-second pause before a draft
    appears and the rendering are left out. */
module DraftEmail {
  import opened Common

  datatype Tone = Formal | Neutral | Warm | Persuasive

  datatype Toast = Success(message: string) | Error(message: string)

  datatype ExportFormat = Docx | Pdf | Txt

  datatype DraftState = DraftState(recipients: seq<string>, newRecipient: string, subject: string,
                                   tone: Tone, context: string, generatedEmail: string)

  const InitialState := DraftState([], "", "", Neutral, "", "")

  const InvalidAddress := "Please enter a valid email address"

  // ---------------------------------------------------------------------
  // The address check
  // ---------------------------------------------------------------------

  /** A run of `[^\s@]+`: non-empty, without white space and without `@`. */
  predicate Part(x: string)
  {
    |x| > 0 && forall k :: 0 <= k < |x| ==> !IsWhite(x[k]) && x[k] != '@'
  }

  /** `/^[^\s@]+@[^\s@]+\.[^\s@]+$/.test(s)`: the address splits at an `@`
      at `i` and a `.` at `j` into three runs of the class `[^\s@]`. */
  predicate MatchesEmailPattern(s: string)
  {
    exists i, j :: 0 <= i < j < |s| && s[i] == '@' && s[j] == '.'
      && Part(s[..i]) && Part(s[i + 1..j]) && Part(s[j + 1..])
  }

  /** A dot with at least one character on either side. */
  predicate DotInside(d: string)
  {
    exists k :: 1 <= k < |d| - 1 && d[k] == '.'
  }

  /** The same check read off the address: no white space, exactly one `@`
      which is not the first character, and a dot strictly inside the part
      after the `@`. */
  predicate IsValidEmail(s: string)
  {
    var at := IndexOf(s, '@');
    NoWhite(s) && at >= 1 && '@' !in s[at + 1..] && DotInside(s[at + 1..])
  }

  /** The pattern accepts exactly the addresses `IsValidEmail` describes. */
  lemma EmailPatternIff(s: string)
    ensures MatchesEmailPattern(s) <==> IsValidEmail(s)
  {
    if IsValidEmail(s) {
      ValidMatches(s);
    }
    if MatchesEmailPattern(s) {
      var i, j :| 0 <= i < j < |s| && s[i] == '@' && s[j] == '.'
        && Part(s[..i]) && Part(s[i + 1..j]) && Part(s[j + 1..]);
      MatchesValid(s, i, j);
    }
  }

  lemma ValidMatches(s: string)
    requires IsValidEmail(s)
    ensures MatchesEmailPattern(s)
  {
    var at := IndexOf(s, '@');
    var d := s[at + 1..];
    var k :| 1 <= k < |d| - 1 && d[k] == '.';
    var j := at + 1 + k;
    forall m | 0 <= m < at
      ensures !IsWhite(s[..at][m]) && s[..at][m] != '@'
    {
      assert s[..at][m] in s[..at];
    }
    forall m | 0 <= m < |d|
      ensures !IsWhite(d[m]) && d[m] != '@'
    {
      assert d[m] == s[at + 1 + m];
      assert d[m] in d;
    }
    assert s[at + 1..j] == d[..k];
    assert s[j + 1..] == d[k + 1..];
    assert s[at] == '@' && s[j] == '.';
  }

  lemma MatchesValid(s: string, i: nat, j: nat)
    requires i < j < |s| && s[i] == '@' && s[j] == '.'
    requires Part(s[..i]) && Part(s[i + 1..j]) && Part(s[j + 1..])
    ensures IsValidEmail(s)
  {
    assert '@' !in s[..i] by {
      forall m | 0 <= m < i ensures s[..i][m] != '@' { }
    }
    IndexOfIs(s, '@', i);
    var d := s[i + 1..];
    forall m | 0 <= m < |s|
      ensures !IsWhite(s[m]) && (m > i ==> s[m] != '@')
    {
      if m < i {
        assert s[m] == s[..i][m];
      } else if i < m < j {
        assert s[m] == s[i + 1..j][m - i - 1];
      } else if j < m {
        assert s[m] == s[j + 1..][m - j - 1];
      }
    }
    assert '@' !in d by {
      forall m | 0 <= m < |d| ensures d[m] != '@' {
        assert d[m] == s[i + 1 + m];
      }
    }
    assert d[j - i - 1] == '.';
  }

  /** An accepted address has no white space, so trimming it changes
      nothing: the address stored is the one typed. */
  lemma AcceptedIsTrimmed(s: string)
    requires MatchesEmailPattern(s)
    ensures Trim(s) == s && s != ""
  {
    EmailPatternIff(s);
    TrimNoWhite(s);
  }

  /** Splitting an accepted address at `@` gives its local part and its
      domain. */
  lemma AcceptedSplit(s: string)
    requires MatchesEmailPattern(s)
    ensures Split(s, '@') == [s[..IndexOf(s, '@')], s[IndexOf(s, '@') + 1..]]
    ensures Part(s[..IndexOf(s, '@')])
  {
    EmailPatternIff(s);
    var at := IndexOf(s, '@');
    SplitAt(s, '@', at);
    SplitNoSep(s[at + 1..], '@');
    forall m | 0 <= m < at
      ensures !IsWhite(s[..at][m]) && s[..at][m] != '@'
    {
      assert s[..at][m] in s[..at];
    }
  }

  /** Two concrete addresses: a plain one passes, and three that break one
      rule each fail. */
  lemma EmailExamples()
    ensures IsValidEmail("a@b.c")
    ensures !IsValidEmail("a@bc")
    ensures !IsValidEmail("@b.c")
    ensures !IsValidEmail("a@b@c.d")
  {
    assert IndexOf("a@b.c", '@') == 1;
    assert "a@b.c"[2..][1] == '.';
    assert NoWhite("a@b.c");
    assert IndexOf("a@bc", '@') == 1;
    assert "a@bc"[2..] == "bc";
    assert IndexOf("@b.c", '@') == 0;
    assert IndexOf("a@b@c.d", '@') == 1;
    assert "a@b@c.d"[2..][1] == '@';
  }

  // ---------------------------------------------------------------------
  // Recipients
  // ---------------------------------------------------------------------

  /** Every recipient passes the address check. */
  predicate AllAccepted(rs: seq<string>)
  {
    forall i :: 0 <= i < |rs| ==> MatchesEmailPattern(rs[i])
  }

  /** `handleAddRecipient`: a blank input is ignored, an address the pattern
      rejects raises an error toast, and any other is trimmed and appended,
      and the input is cleared. */
  function AddRecipient(st: DraftState): (DraftState, Option<Toast>)
  {
    if Trim(st.newRecipient) == "" then (st, None)
    else if !MatchesEmailPattern(st.newRecipient) then (st, Some(Error(InvalidAddress)))
    else (st.(recipients := st.recipients + [Trim(st.newRecipient)], newRecipient := ""), None)
  }

  /** The list grows, by the address exactly as typed, precisely when the
      input is a valid address; otherwise the state is untouched, and the
      error toast appears precisely for a non-blank invalid input. */
  lemma AddRecipientSpec(st: DraftState)
    ensures var (next, toast) := AddRecipient(st);
      (IsValidEmail(st.newRecipient) ==>
         next == st.(recipients := st.recipients + [st.newRecipient], newRecipient := "") && toast.None?)
      && (!IsValidEmail(st.newRecipient) ==> next == st)
      && (toast.Some? <==> HasNonWhite(st.newRecipient) && !IsValidEmail(st.newRecipient))
      && (toast.Some? ==> toast.value == Error(InvalidAddress))
  {
    EmailPatternIff(st.newRecipient);
    TrimEnds(st.newRecipient);
    if MatchesEmailPattern(st.newRecipient) {
      AcceptedIsTrimmed(st.newRecipient);
    }
  }

  /** Adding keeps every recipient a valid address. */
  lemma AddKeepsAccepted(st: DraftState)
    requires AllAccepted(st.recipients)
    ensures AllAccepted(AddRecipient(st).0.recipients)
  {
    if Trim(st.newRecipient) != "" && MatchesEmailPattern(st.newRecipient) {
      AcceptedIsTrimmed(st.newRecipient);
    }
  }

  /** `handleKeyDown`: Enter on a non-blank input adds it; any other key
      changes nothing. */
  function KeyDown(st: DraftState, key: string): (DraftState, Option<Toast>)
  {
    if key == "Enter" && Trim(st.newRecipient) != "" then AddRecipient(st) else (st, None)
  }

  /** Enter is the add button: the blank input both refuse is ignored by
      both. */
  lemma EnterIsAdd(st: DraftState)
    ensures KeyDown(st, "Enter") == AddRecipient(st)
  {
  }

  /** The start `Array.prototype.splice` uses for `index` on a list of
      length `len`: a negative index counts from the end, and both ends
      are clamped. */
  function SpliceStart(len: nat, index: int): (k: nat)
    ensures k <= len
  {
    if index < 0 then (if len + index < 0 then 0 else len + index)
    else if index > len then len
    else index
  }

  /** `list.splice(index, 1)` on a copy of the list. */
  function SpliceOne<T>(s: seq<T>, index: int): seq<T>
  {
    var k := SpliceStart(|s|, index);
    if k < |s| then s[..k] + s[k + 1..] else s
  }

  /** `handleRemoveRecipient(index)`. */
  function RemoveRecipient(st: DraftState, index: int): DraftState
  {
    st.(recipients := SpliceOne(st.recipients, index))
  }

  /** Removing a listed index deletes exactly that recipient, keeps the
      others in their order, and shortens the list by one. */
  lemma RemoveDeletesThatOne(st: DraftState, k: int)
    requires 0 <= k < |st.recipients|
    ensures var rs := RemoveRecipient(st, k).recipients;
      |rs| == |st.recipients| - 1
      && (forall i :: 0 <= i < k ==> rs[i] == st.recipients[i])
      && (forall i :: k <= i < |rs| ==> rs[i] == st.recipients[i + 1])
      && multiset(rs) + multiset{st.recipients[k]} == multiset(st.recipients)
    ensures RemoveRecipient(st, k) == st.(recipients := RemoveRecipient(st, k).recipients)
  {
    var s := st.recipients;
    assert s == s[..k] + [s[k]] + s[k + 1..];
  }

  /** An index past the end removes nothing; a negative one counts from the
      end, and one before the start removes the first recipient. */
  lemma RemoveOutOfRange(st: DraftState, index: int)
    ensures index >= |st.recipients| ==> RemoveRecipient(st, index) == st
    ensures -|st.recipients| <= index < 0 ==>
      RemoveRecipient(st, index) == RemoveRecipient(st, |st.recipients| + index)
    ensures index < -|st.recipients| && |st.recipients| > 0 ==>
      RemoveRecipient(st, index) == RemoveRecipient(st, 0)
  {
  }

  /** Removing keeps every recipient a valid address. */
  lemma RemoveKeepsAccepted(st: DraftState, index: int)
    requires AllAccepted(st.recipients)
    ensures AllAccepted(RemoveRecipient(st, index).recipients)
  {
    var s := st.recipients;
    var k := SpliceStart(|s|, index);
    if k < |s| {
      var rs := s[..k] + s[k + 1..];
      forall i | 0 <= i < |rs| ensures MatchesEmailPattern(rs[i]) {
        if i < k { assert rs[i] == s[i]; } else { assert rs[i] == s[i + 1]; }
      }
    }
  }

  // ---------------------------------------------------------------------
  // Generating a draft
  // ---------------------------------------------------------------------

  /** The name after the salutation: the first recipient's text before its
      first `@`, else `Recipient` in the formal tone and `there` in the
      others. */
  function GreetingName(tone: Tone, recipients: seq<string>): string
  {
    if |recipients| > 0 then Split(recipients[0], '@')[0]
    else if tone == Formal then "Recipient"
    else "there"
  }

  /** With a valid first recipient the greeting is its local part: non-empty
      and without `@`. */
  lemma GreetingIsLocalPart(tone: Tone, recipients: seq<string>)
    requires |recipients| > 0 && MatchesEmailPattern(recipients[0])
    ensures GreetingName(tone, recipients) == recipients[0][..IndexOf(recipients[0], '@')]
    ensures Part(GreetingName(tone, recipients))
  {
    AcceptedSplit(recipients[0]);
  }

  /** Without recipients the greeting depends on the tone alone. */
  lemma GreetingWithoutRecipients(tone: Tone)
    ensures GreetingName(tone, []) == (if tone == Formal then "Recipient" else "there")
  {
  }

  function Salutation(tone: Tone): string
  {
    if tone == Formal then "Dear " else "Hi "
  }

  /** The sentence the subject completes. */
  function Lead(tone: Tone): string
  {
    match tone
    case Formal => "I am writing to address the matter regarding "
    case Neutral => "I'm reaching out about "
    case Warm => "Hope you're doing well! I wanted to connect with you about "
    case Persuasive => "I'm excited to share some important information with you about "
  }

  /** The paragraphs after the context, up to the sign-off. */
  function Closing(tone: Tone): string
  {
    match tone
    case Formal =>
      "Please review the attached documentation at your earliest convenience. Should you have any inquiries or require further clarification, do not hesitate to contact me.\n\nI look forward to your response.\n\nSincerely,\n"
    case Neutral =>
      "Let me know if you have any questions or need more information.\n\nThanks,\n"
    case Warm =>
      "I'd be happy to discuss this further or answer any questions you might have. Feel free to reach out anytime.\n\nAll the best,\n"
    case Persuasive =>
      "This opportunity presents significant benefits, and I believe it would be advantageous for us to discuss this further. When would be a good time for a quick call this week?\n\nLooking forward to your response,\n"
  }

  const Signature := "[Your Name]\n[Your Title]\n[Company Name]\n[Contact Information]"

  /** The greeting line of a draft, with the blank line after it. */
  function GreetingLine(tone: Tone, recipients: seq<string>): string
  {
    Salutation(tone) + GreetingName(tone, recipients) + ",\n\n"
  }

  /** The draft `handleGenerateEmail` writes for a tone. */
  function EmailContent(tone: Tone, recipients: seq<string>, subject: string, context: string): string
  {
    GreetingLine(tone, recipients) + Lead(tone) + subject + ".\n\n" + context + "\n\n" + Closing(tone) + Signature
  }

  /** A draft opens with its greeting line, carries the subject right after
      the tone's lead and the context verbatim as its own paragraph, and
      ends with the signature block. */
  lemma DraftLayout(tone: Tone, recipients: seq<string>, subject: string, context: string)
    ensures var e := EmailContent(tone, recipients, subject, context);
      var g := |GreetingLine(tone, recipients)|;
      var s := g + |Lead(tone)|;
      var c := s + |subject| + 3;
      |e| == c + |context| + 2 + |Closing(tone)| + |Signature|
      && e[..g] == GreetingLine(tone, recipients)
      && e[s..s + |subject|] == subject
      && e[c..c + |context|] == context
      && e[|e| - |Signature|..] == Signature
  {
    Layout(GreetingLine(tone, recipients), Lead(tone), subject, context, Closing(tone), Signature);
  }

  lemma Layout(gl: string, lead: string, subject: string, context: string, closing: string, sig: string)
    ensures var e := gl + lead + subject + ".\n\n" + context + "\n\n" + closing + sig;
      var s := |gl| + |lead|;
      var c := s + |subject| + 3;
      |e| == c + |context| + 2 + |closing| + |sig|
      && e[..|gl|] == gl
      && e[s..s + |subject|] == subject
      && e[c..c + |context|] == context
      && e[|e| - |sig|..] == sig
  {
    var e := gl + lead + subject + ".\n\n" + context + "\n\n" + closing + sig;
    var s := |gl| + |lead|;
    var c := s + |subject| + 3;
    assert e == gl + (lead + subject + ".\n\n" + context + "\n\n" + closing + sig);
    assert e == (gl + lead) + subject + (".\n\n" + context + "\n\n" + closing + sig);
    assert e == (gl + lead + subject + ".\n\n") + context + ("\n\n" + closing + sig);
    assert e == (gl + lead + subject + ".\n\n" + context + "\n\n" + closing) + sig;
  }

  /** `handleGenerateEmail`: a blank subject, then a blank context, is
      refused with no change; otherwise the draft for the selected tone is
      stored. */
  function Generate(st: DraftState): (DraftState, Toast)
  {
    if Trim(st.subject) == "" then (st, Error("Please enter a subject"))
    else if Trim(st.context) == "" then (st, Error("Please provide context for the email"))
    else (st.(generatedEmail := EmailContent(st.tone, st.recipients, st.subject, st.context)),
          Success("Email draft generated"))
  }

  /** Generating succeeds exactly when the subject and the context each
      hold a non-white character; a refusal changes nothing and names the
      first missing field, and a success changes only the draft, which is
      then non-empty. */
  lemma GenerateSpec(st: DraftState)
    ensures var (next, toast) := Generate(st);
      (toast.Success? <==> HasNonWhite(st.subject) && HasNonWhite(st.context))
      && (toast.Error? ==> next == st)
      && (!HasNonWhite(st.subject) ==> toast == Error("Please enter a subject"))
      && (HasNonWhite(st.subject) && !HasNonWhite(st.context) ==>
            toast == Error("Please provide context for the email"))
      && (toast.Success? ==> next.generatedEmail != "" && next == st.(generatedEmail := next.generatedEmail))
  {
    TrimEnds(st.subject);
    TrimEnds(st.context);
  }

  // ---------------------------------------------------------------------
  // Using the draft
  // ---------------------------------------------------------------------

  /** `handleSaveEmail`: refused while there is no draft; the page state
      never changes. */
  function SaveEmail(st: DraftState): Toast
  {
    if st.generatedEmail == "" then Error("No email draft to save")
    else Success("Email draft saved to My Documents")
  }

  function FormatValue(f: ExportFormat): string
  {
    match f
    case Docx => "docx"
    case Pdf => "pdf"
    case Txt => "txt"
  }

  /** `handleExportEmail(format)`. */
  function ExportEmail(st: DraftState, f: ExportFormat): Toast
  {
    if st.generatedEmail == "" then Error("No email draft to export")
    else Success("Email exported as " + ToUpperAscii(FormatValue(f)))
  }

  /** `handleCopyToClipboard`: the toast and the text written to the
      clipboard, if any. */
  function CopyToClipboard(st: DraftState): (Toast, Option<string>)
  {
    if st.generatedEmail == "" then (Error("No email draft to copy"), None)
    else (Success("Email draft copied to clipboard"), Some(st.generatedEmail))
  }

  /** Without a draft, save, export and copy each raise their own error and
      write nothing to the clipboard; with one they all succeed, and the
      clipboard receives the draft itself. */
  lemma DraftActionsNeedDraft(st: DraftState, f: ExportFormat)
    ensures st.generatedEmail == "" <==> SaveEmail(st).Error?
    ensures st.generatedEmail == "" <==> ExportEmail(st, f).Error?
    ensures st.generatedEmail == "" <==> CopyToClipboard(st).1.None?
    ensures st.generatedEmail == "" ==>
      SaveEmail(st) == Error("No email draft to save") && ExportEmail(st, f) == Error("No email draft to export")
      && CopyToClipboard(st).0 == Error("No email draft to copy")
    ensures CopyToClipboard(st).1.Some? ==> CopyToClipboard(st).1.value == st.generatedEmail
  {
  }

  /** The export toast names the format in capitals. */
  lemma ExportNames(st: DraftState)
    requires st.generatedEmail != ""
    ensures ExportEmail(st, Docx) == Success("Email exported as DOCX")
    ensures ExportEmail(st, Pdf) == Success("Email exported as PDF")
    ensures ExportEmail(st, Txt) == Success("Email exported as TXT")
  {
    UpperDocx();
    UpperPdf();
    UpperTxt();
  }

  lemma UpperDocx()
    ensures ToUpperAscii("docx") == "DOCX"
  {
    var r := ToUpperAscii("docx");
    assert r[0] == 'D' && r[1] == 'O' && r[2] == 'C' && r[3] == 'X';
  }

  lemma UpperPdf()
    ensures ToUpperAscii("pdf") == "PDF"
  {
    var r := ToUpperAscii("pdf");
    assert r[0] == 'P' && r[1] == 'D' && r[2] == 'F';
  }

  lemma UpperTxt()
    ensures ToUpperAscii("txt") == "TXT"
  {
    var r := ToUpperAscii("txt");
    assert r[0] == 'T' && r[1] == 'X' && r[2] == 'T';
  }

  /** On a fresh page nothing can be saved; after a successful generate the
      draft can be saved, exported and copied. */
  lemma GenerateEnablesActions(st: DraftState, f: ExportFormat)
    ensures SaveEmail(InitialState).Error? && Generate(InitialState).0 == InitialState
    ensures Generate(st).1.Success? ==>
      SaveEmail(Generate(st).0).Success? && ExportEmail(Generate(st).0, f).Success?
      && CopyToClipboard(Generate(st).0).1 == Some(Generate(st).0.generatedEmail)
  {
    GenerateSpec(st);
    assert Trim("") == "";
  }
}
