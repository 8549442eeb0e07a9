/** The settings screen: the avatar initials, the appearance toggles and the profile field editor. */
module SettingsView {
  import opened Options
  import opened Types
  import opened Text
  import opened Numbers
  import opened Seqs

  /** The download name of the settings screen's export, whose content is `DataView.CsvContent`. */
  const CsvFileName := "fintrack_export.csv"

  /** The first character of every non-empty piece, in order (`n[0]` of an empty piece joins as nothing). */
  function FirstChars(pieces: seq<string>): (r: string)
    ensures |r| <= |pieces|
  {
    if pieces == [] then []
    else (if pieces[0] == [] then [] else [pieces[0][0]]) + FirstChars(pieces[1..])
  }

  /** The avatar text: the upper-cased first letters of the space-separated words of the name, at most two. */
  function Initials(name: string): (r: string)
    ensures |r| <= 2
  {
    var all := Upper(FirstChars(Split(name, ' ')));
    if |all| <= 2 then all else all[..2]
  }

  predicate NonEmpty(piece: string) {
    piece != []
  }

  /** Empty pieces contribute nothing: the first characters are those of the non-empty pieces. */
  lemma {:induction false} FirstCharsSkipsEmpty(pieces: seq<string>)
    ensures FirstChars(pieces) == FirstChars(Filter(pieces, NonEmpty))
  {
    if pieces != [] {
      FirstCharsSkipsEmpty(pieces[1..]);
      var rest := Filter(pieces[1..], NonEmpty);
      if pieces[0] != [] {
        assert Filter(pieces, NonEmpty) == [pieces[0]] + rest;
        assert ([pieces[0]] + rest)[1..] == rest;
      } else {
        assert Filter(pieces, NonEmpty) == [] + rest == rest;
      }
    }
  }

  /**
   * Any name, with leading, trailing or repeated spaces or none at all: the initials are the upper-cased
   * first letters of its first two non-empty words, and there are as many as such words, up to two.
   */
  lemma InitialsOfName(name: string)
    ensures var words, r := Filter(Split(name, ' '), NonEmpty), Initials(name);
      |r| == (if |words| < 2 then |words| else 2) && forall i :: 0 <= i < |r| ==> words[i] != [] && r[i] == UpperChar(words[i][0])
  {
    var words := Filter(Split(name, ' '), NonEmpty);
    FirstCharsSkipsEmpty(Split(name, ' '));
    assert forall i :: 0 <= i < |words| ==> words[i] in words;
    FirstCharsOfWords(words);
    var all := Upper(FirstChars(words));
    assert Initials(name) == if |all| <= 2 then all else all[..2];
  }

  /** A leading space is skipped. */
  lemma InitialsLeadingSpace()
    ensures Initials(" Ana") == "A"
  {
    var words := ["", "Ana"];
    assert Join(words, ' ') == " Ana";
    SplitJoin(words, ' ');
    assert Filter(words, NonEmpty) == ["Ana"];
    InitialsOfName(" Ana");
    var r := Initials(" Ana");
    assert |r| == 1 && r[0] == UpperChar('A') == 'A';
  }

  /** An empty name has no initials. */
  lemma InitialsEmptyName()
    ensures Initials("") == ""
  {
    InitialsOfName("");
  }

  /** A doubled space is skipped. */
  lemma InitialsDoubledSpace()
    ensures Initials("a  b") == "AB"
  {
    var words := ["a", "", "b"];
    assert words[1..] == ["", "b"] && words[1..][1..] == ["b"];
    assert Join(words[1..], ' ') == " b";
    assert Join(words, ' ') == "a  b";
    SplitJoin(words, ' ');
    assert Filter(words[1..], NonEmpty) == ["b"];
    assert Filter(words, NonEmpty) == ["a", "b"];
    InitialsOfName("a  b");
    var r := Initials("a  b");
    assert |r| == 2 && r[0] == UpperChar('a') == 'A' && r[1] == UpperChar('b') == 'B';
  }

  lemma {:induction false} FirstCharsOfWords(words: seq<string>)
    requires forall i :: 0 <= i < |words| ==> words[i] != []
    ensures FirstChars(words) == seq(|words|, i requires 0 <= i < |words| => words[i][0])
  {
    if words != [] {
      assert forall i :: 0 <= i < |words[1..]| ==> words[1..][i] == words[i + 1];
      FirstCharsOfWords(words[1..]);
    }
  }

  /**
   * For a name made of non-empty words separated by single spaces, the initials are the first letters of
   * the first two words, upper-cased.
   */
  lemma InitialsOfWords(words: seq<string>)
    requires |words| >= 1
    requires forall i :: 0 <= i < |words| ==> words[i] != [] && ' ' !in words[i]
    ensures var r := Initials(Join(words, ' '));
      |r| == (if |words| < 2 then |words| else 2) && forall i :: 0 <= i < |r| ==> r[i] == UpperChar(words[i][0])
  {
    assert forall w :: w in words ==> ' ' !in w;
    SplitJoin(words, ' ');
    FirstCharsOfWords(words);
  }

  /** The settings toggle for dark mode flips that flag and keeps every other field. */
  function ToggleDarkMode(p: UserProfile): (r: UserProfile)
    ensures r.isDarkMode != p.isDarkMode
    ensures r.(isDarkMode := p.isDarkMode) == p
  {
    p.(isDarkMode := !p.isDarkMode)
  }

  /** The settings toggle for hiding balances flips that flag and keeps every other field. */
  function ToggleHideBalance(p: UserProfile): (r: UserProfile)
    ensures r.hideBalance != p.hideBalance
    ensures r.(hideBalance := p.hideBalance) == p
  {
    p.(hideBalance := !p.hideBalance)
  }

  /** Toggling twice restores the profile. */
  lemma TogglesAreInvolutions(p: UserProfile)
    ensures ToggleDarkMode(ToggleDarkMode(p)) == p
    ensures ToggleHideBalance(ToggleHideBalance(p)) == p
  {
  }

  /** The editable profile fields. */
  datatype ProfileField = NameField | AgeField | JobField

  /**
   * Committing an edit: the text replaces the edited field and nothing else; the age goes through
   * `parseInt`, so text without leading digits leaves it not-a-number (None).
   */
  function EditField(p: UserProfile, f: ProfileField, text: string): (r: UserProfile)
    ensures f == NameField ==> r == p.(name := text)
    ensures f == JobField ==> r == p.(job := text)
    ensures f == AgeField ==> r == p.(age := ParseInt(text))
    ensures f == AgeField && ScanDecimal(text).whole == [] ==> r.age.None?
  {
    match f
    case NameField => p.(name := text)
    case AgeField => p.(age := ParseInt(text))
    case JobField => p.(job := text)
  }

  /** Editing the same field with the same text twice is editing it once. */
  lemma EditFieldIdempotent(p: UserProfile, f: ProfileField, text: string)
    ensures EditField(EditField(p, f, text), f, text) == EditField(p, f, text)
  {
  }

  /** The profile and the field whose editor is open, if any. */
  class Settings {
    var profile: UserProfile
    var editing: Option<ProfileField>

    constructor(p: UserProfile)
      ensures profile == p && editing.None?
    {
      profile := p;
      editing := None;
    }

    method ToggleDark()
      modifies this`profile
      ensures profile == ToggleDarkMode(old(profile))
    {
      profile := ToggleDarkMode(profile);
    }

    method ToggleHide()
      modifies this`profile
      ensures profile == ToggleHideBalance(old(profile))
    {
      profile := ToggleHideBalance(profile);
    }

    /** A row's edit button opens the editor on its field. */
    method BeginEdit(f: ProfileField)
      modifies this`editing
      ensures editing == Some(f)
    {
      editing := Some(f);
    }

    /** Enter in the editor: the typed text is committed to the open field and the editor closes. */
    method CommitEdit(text: string)
      requires editing.Some?
      modifies this
      ensures profile == EditField(old(profile), old(editing).value, text)
      ensures editing.None?
    {
      profile := EditField(profile, editing.value, text);
      editing := None;
    }

    /** Both the Cancelar and the Salvar button: the editor closes and the profile is kept as it is. */
    method CloseEditor()
      modifies this`editing
      ensures editing.None?
    {
      editing := None;
    }
  }
}
