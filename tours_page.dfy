/** The tours listing page: which category the query string selects and the
    heading shown above the list. */
module ToursPage {
  import opened Wrappers
  import opened Text

  /** A query-string entry: absent, given once, or repeated. */
  datatype SearchParam = Absent | Single(value: string) | Repeated(values: seq<string>)

  const AllToursHeading: string := "All Tours"

  /** `typeof searchParams.category === "string" ? searchParams.category : undefined`. */
  function CategoryOf(param: SearchParam): (category: Option<string>)
    ensures category.Some? <==> param.Single?
    ensures param.Single? ==> category.value == param.value
  {
    match param
    case Single(v) => Some(v)
    case _ => None
  }

  /** `word.charAt(0).toUpperCase() + word.slice(1)`. */
  function Capitalize(word: string): (r: string)
    ensures |r| == |word|
    ensures |word| > 0 ==> r[0] == UpperChar(word[0]) && r[1..] == word[1..]
  {
    if word == "" then "" else [UpperChar(word[0])] + word[1..]
  }

  function CapitalizeAll(words: seq<string>): (r: seq<string>)
    ensures |r| == |words|
    ensures forall i :: 0 <= i < |r| ==> r[i] == Capitalize(words[i])
  {
    seq(|words|, i requires 0 <= i < |words| => Capitalize(words[i]))
  }

  /** The slug with its hyphens turned into spaces and each word capitalised. */
  function TitleOf(slug: string): string {
    Join(CapitalizeAll(Split(slug, '-')), " ")
  }

  /** The page heading: "All Tours" when no category is selected (an empty
      one included, as it is falsy), else the title of the slug and " Tours". */
  function Heading(category: Option<string>): (h: string)
    ensures category.None? || category.value == "" ==> h == AllToursHeading
    ensures |h| >= 6 && h[|h| - 6..] == " Tours"
  {
    if category.Some? && category.value != "" then TitleOf(category.value) + " Tours" else AllToursHeading
  }

  lemma UpperCharKeepsSpace(c: char)
    ensures UpperChar(c) == ' ' <==> c == ' '
  {
  }

  /** Capitalising does not create a space. */
  lemma CapitalizeNoSpace(word: string)
    requires ' ' !in word
    ensures ' ' !in Capitalize(word)
  {
    if word != "" {
      UpperCharKeepsSpace(word[0]);
      assert Capitalize(word) == [UpperChar(word[0])] + word[1..];
      forall c | c in word[1..]
        ensures c != ' '
      {
      }
    }
  }

  /** The title has one word per hyphen-separated piece of the slug, and the
      words are the capitalised pieces in order, as long as the slug holds
      no space itself. */
  lemma {:induction false} TitleWordsArePieces(slug: string)
    requires ' ' !in slug
    ensures Split(TitleOf(slug), ' ') == CapitalizeAll(Split(slug, '-'))
    ensures |Split(TitleOf(slug), ' ')| == |Split(slug, '-')|
    ensures forall i :: 0 <= i < |Split(slug, '-')| ==> ' ' !in CapitalizeAll(Split(slug, '-'))[i]
  {
    var pieces := Split(slug, '-');
    var words := CapitalizeAll(pieces);
    forall i | 0 <= i < |words|
      ensures ' ' !in words[i]
    {
      JoinSplit(slug, '-');
      PieceInside(pieces, i, '-');
      CapitalizeNoSpace(pieces[i]);
    }
    SplitJoin(words, ' ');
  }

  /** Every character of a piece appears in the joined text. */
  lemma {:induction false} PieceInside(pieces: seq<string>, i: nat, c: char)
    requires i < |pieces|
    ensures forall x :: x in pieces[i] ==> x in Join(pieces, [c])
    decreases |pieces|
  {
    if |pieces| > 1 {
      if i > 0 {
        PieceInside(pieces[1..], i - 1, c);
        assert pieces[1..][i - 1] == pieces[i];
        assert Join(pieces, [c]) == pieces[0] + [c] + Join(pieces[1..], [c]);
      } else {
        assert Join(pieces, [c]) == pieces[0] + [c] + Join(pieces[1..], [c]);
      }
    }
  }

  /** A slug without hyphens becomes a single capitalised word. */
  lemma SingleWordTitle(slug: string)
    requires '-' !in slug
    ensures TitleOf(slug) == Capitalize(slug)
  {
    SplitWithoutSeparator(slug, '-');
  }

  lemma {:induction false} JoinAppend(words: seq<string>, last: string, sep: string)
    requires |words| >= 1
    ensures Join(words + [last], sep) == Join(words, sep) + sep + last
    decreases |words|
  {
    if |words| > 1 {
      assert (words + [last])[1..] == words[1..] + [last];
      JoinAppend(words[1..], last, sep);
    }
  }

  /** Splitting words joined by spaces, plus one more word, gives them back. */
  lemma SplitWordsAndLast(words: seq<string>, last: string)
    requires |words| >= 1 && ' ' !in last
    requires forall i :: 0 <= i < |words| ==> ' ' !in words[i]
    ensures Split(Join(words, " ") + [' '] + last, ' ') == words + [last]
  {
    JoinAppend(words, last, " ");
    SplitJoin(words + [last], ' ');
  }

  /** Read as words, the heading of a category is its capitalised pieces
      followed by "Tours". */
  lemma HeadingWords(slug: string)
    requires slug != "" && ' ' !in slug
    ensures Split(Heading(Some(slug)), ' ') == CapitalizeAll(Split(slug, '-')) + ["Tours"]
  {
    var tours := "Tours";
    assert ' ' !in tours;
    assert Heading(Some(slug)) == TitleOf(slug) + [' '] + tours;
    TitleWordsArePieces(slug);
    TitleAndWord(slug, tours);
  }

  lemma TitleAndWord(slug: string, last: string)
    requires ' ' !in slug && ' ' !in last
    ensures Split(TitleOf(slug) + [' '] + last, ' ') == CapitalizeAll(Split(slug, '-')) + [last]
  {
    TitleWordsArePieces(slug);
    SplitWordsAndLast(CapitalizeAll(Split(slug, '-')), last);
  }
}
