/** The admin confirmation-letter page
    (src/pages/admin/confirmation-letter.tsx): searching profiles by a
    normalised term, and the text content and file name of the
    accommodation confirmation letter for the selected profile.

    The profile query's matching and ordering happen in the database and
    arrive as the query's outcome. The letter is modelled as its text lines;
    its drawing is not. */
module ConfirmationLetter {
  import opened Wrappers
  import opened Text
  import Payment

  datatype Profile = Profile(id: string, fullName: string, email: string, phone: Option<string>,
                             address: Option<string>, gender: Option<string>)

  /** The search term: the query lowercased, then trimmed. It is the query
      after its leading blanks, each character lowercased, up to a blank
      tail; it has no capital letter and neither end is whitespace. */
  function SearchTerm(query: string): (term: string)
    ensures LeadingBlanks(query) + |term| <= |query|
    ensures forall i :: 0 <= i < |term| ==> term[i] == LowerChar(query[LeadingBlanks(query) + i])
    ensures IsBlank(query[LeadingBlanks(query) + |term|..])
    ensures forall i :: 0 <= i < |term| ==> !('A' <= term[i] <= 'Z')
    ensures term == [] <==> IsBlank(query)
    ensures term == [] || (!IsWhitespace(term[0]) && !IsWhitespace(term[|term| - 1]))
  {
    var lowered := ToLower(query);
    TrimEmptyIffBlank(lowered);
    LowerKeepsBlank(query);
    TrimOfLower(query, lowered);
    Trim(lowered)
  }

  /** The page's search state: the query typed, the profiles listed and the
      selected profile. */
  datatype SearchState = SearchState(query: string, profiles: seq<Profile>, selected: Option<Profile>)

  /** The term the search sent, if a search ran, and the state after it. */
  datatype SearchRun = SearchRun(term: Option<string>, state: SearchState)

  /** `searchUsers` given the query's outcome. A blank query runs no search;
      an error keeps everything; an empty result empties the list but keeps
      the selection; a non-empty result replaces the list and clears the
      selection. */
  function SearchUsers(state: SearchState, results: Query<seq<Profile>>): (r: SearchRun)
    ensures r.term.None? <==> IsBlank(state.query)
    ensures r.term.Some? ==> r.term.value == SearchTerm(state.query) && r.term.value != []
    ensures r.state.query == state.query
    ensures IsBlank(state.query) || results.QueryError? ==> r.state == state
    ensures !IsBlank(state.query) && results.QueryOk? && (results.data.None? || results.data.value == []) ==>
              r.state == state.(profiles := [])
    ensures !IsBlank(state.query) && results.QueryOk? && results.data.Some? && results.data.value != [] ==>
              r.state == state.(profiles := results.data.value, selected := None)
  {
    TrimEmptyIffBlank(state.query);
    if Trim(state.query) == [] then SearchRun(None, state)
    else
      var term := SearchTerm(state.query);
      match results
      case QueryError(_) => SearchRun(Some(term), state)
      case QueryOk(data) =>
        if data.None? || data.value == [] then SearchRun(Some(term), state.(profiles := []))
        else SearchRun(Some(term), state.(profiles := data.value, selected := None))
  }

  const NotProvided := "Not provided"
  const NotSpecified := "Not specified"

  /** The five resident lines: name and email as stored, and "Not provided"
      or "Not specified" for a missing or empty phone, gender or address. */
  function ResidentLines(p: Profile): (lines: seq<string>)
    ensures |lines| == 5
    ensures lines[0] == "Full Name: " + p.fullName && lines[1] == "Email: " + p.email
    ensures p.phone.None? || p.phone.value == "" ==> lines[2] == "Phone: " + NotProvided
    ensures p.phone.Some? && p.phone.value != "" ==> lines[2] == "Phone: " + p.phone.value
    ensures p.gender.None? || p.gender.value == "" ==> lines[3] == "Gender: " + NotSpecified
    ensures p.gender.Some? && p.gender.value != "" ==> lines[3] == "Gender: " + p.gender.value
    ensures p.address.None? || p.address.value == "" ==> lines[4] == "Address: " + NotProvided
    ensures p.address.Some? && p.address.value != "" ==> lines[4] == "Address: " + p.address.value
  {
    [ "Full Name: " + p.fullName,
      "Email: " + p.email,
      "Phone: " + OrElse(p.phone, NotProvided),
      "Gender: " + OrElse(p.gender, NotSpecified),
      "Address: " + OrElse(p.address, NotProvided) ]
  }

  const FilePrefix := "mcan_confirmation_letter_"
  const FileSuffix := ".pdf"

  /** The saved file's name. */
  function FileName(id: string): (name: string)
    ensures |name| == |FilePrefix| + |id| + |FileSuffix|
    ensures name[..|FilePrefix|] == FilePrefix && name[|FilePrefix|..|FilePrefix| + |id|] == id
    ensures name[|name| - |FileSuffix|..] == FileSuffix
  {
    FilePrefix + id + FileSuffix
  }

  /** The profile id a letter's file name was made for, if it is one. */
  function IdOfFileName(name: string): (id: Option<string>)
    ensures id.Some? ==> |name| >= |FilePrefix| + |FileSuffix| && FileName(id.value) == name
  {
    if |name| >= |FilePrefix| + |FileSuffix| && name[..|FilePrefix|] == FilePrefix
       && name[|name| - |FileSuffix|..] == FileSuffix then
      var id := name[|FilePrefix|..|name| - |FileSuffix|];
      assert FilePrefix + id + FileSuffix == name[..|FilePrefix|] + id + name[|name| - |FileSuffix|..];
      assert name == name[..|FilePrefix|] + name[|FilePrefix|..|name| - |FileSuffix|] + name[|name| - |FileSuffix|..];
      Some(id)
    else None
  }

  /** The profile id is recoverable from the file name, so letters for
      different profiles never share a name. */
  lemma FileNameRoundTrip(id: string)
    ensures IdOfFileName(FileName(id)) == Some(id)
  {
    var name := FileName(id);
    assert name[|FilePrefix|..|name| - |FileSuffix|] == id;
  }

  /** Every letter is saved with the "pdf" extension, whatever the id. */
  lemma LetterIsPdf(id: string)
    ensures Payment.FileExtension(FileName(id)) == "pdf"
  {
    assert "pdf" == FileSuffix[1..];
    assert forall i :: 0 <= i < 3 ==> "pdf"[i] != '.';
    Payment.ExtensionAfterDot(FilePrefix + id, "pdf");
    assert FilePrefix + id + "." + "pdf" == FileName(id);
  }

  /** The ten lodge rules, in order. */
  const LodgeRules: seq<string> := [
    "1. Religious Practice: Only Islamic religion is practiced within the lodge.",
    "2. Respect and Conduct: Treat all lodgers with utmost respect.",
    "3. Dress Code: Adhere strictly to modest Islamic dress guidelines.",
    "4. Sanitation: Actively participate in lodge cleanliness.",
    "5. Financial Obligations: Pay monthly dues before the 10th.",
    "6. No Illegal Activities: Strictly forbidden.",
    "7. Visitors: No unauthorized visitors allowed.",
    "8. Sound Systems: Maintain low volume.",
    "9. Personal Belongings: All MCAN materials remain MCAN property.",
    "10. Conduct: Embody Islamic teachings always."
  ]

  /** The letter's text content and the name it is saved under. */
  datatype Letter = Letter(fileName: string, resident: seq<string>, rules: seq<string>)

  /** `generatePDF`: nothing without a selected profile. */
  function GeneratePdf(selected: Option<Profile>): (letter: Option<Letter>)
    ensures letter.None? <==> selected.None?
    ensures letter.Some? ==>
              IdOfFileName(letter.value.fileName) == Some(selected.value.id)
              && |letter.value.resident| == 5 && |letter.value.rules| == 10
              && letter.value.resident[0] == "Full Name: " + selected.value.fullName
    ensures letter.Some? ==>
              letter.value.resident == ResidentLines(selected.value) && letter.value.rules == LodgeRules
              && letter.value.fileName == FileName(selected.value.id)
  {
    match selected
    case None => None
    case Some(p) =>
      FileNameRoundTrip(p.id);
      Some(Letter(FileName(p.id), ResidentLines(p), LodgeRules))
  }
}
