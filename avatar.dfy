/**
 * The avatar of components/ui/Avatar.tsx: its initials (the first letter
 * of each space-separated word, upper-cased, at most two) and the choice
 * between the image, the initials and a question mark.
 */
module Avatar {
  import opened Wrappers
  import opened Text
  import opened Seqs

  predicate NonEmpty(w: string)
  {
    w != ""
  }

  /**
   * `.map((n) => n[0]).join("")`: the first character of each non-empty
   * word, in order; an empty word has no first character and adds nothing.
   */
  function FirstChars(words: seq<string>): (r: string)
    ensures |r| == |Filter(words, NonEmpty)| <= |words|
    ensures forall i :: 0 <= i < |r| ==> Filter(words, NonEmpty)[i] != "" && r[i] == Filter(words, NonEmpty)[i][0]
    ensures (forall i :: 0 <= i < |words| ==> words[i] != "") ==>
      |r| == |words| && forall i :: 0 <= i < |words| ==> r[i] == words[i][0]
  {
    if words == [] then ""
    else
      var rest := FirstChars(words[1..]);
      if words[0] == "" then
        rest
      else
        assert forall i :: 0 < i < |words| ==> words[i] == words[1..][i - 1];
        [words[0][0]] + rest
  }

  /** One word in front contributes its first character, if it has one. */
  lemma FirstCharsCons(w: string, words: seq<string>)
    ensures FirstChars([w] + words) == (if w == "" then "" else [w[0]]) + FirstChars(words)
  {
    assert ([w] + words)[0] == w && ([w] + words)[1..] == words;
  }

  /** `.slice(0, n)`. */
  function Take(s: string, n: nat): (r: string)
    ensures |r| <= n && |r| <= |s|
    ensures r == s[..|r|]
    ensures |s| <= n ==> r == s
    ensures |s| > n ==> r == s[..n]
  {
    if |s| <= n then s else s[..n]
  }

  /** `getInitials`: the first two word starts, upper-cased; so there are at most two of them. */
  function Initials(name: string): (r: string)
    ensures r == Take(ToUpper(WordStarts(name)), 2)
    ensures |r| <= 2
  {
    FirstCharsAreWordStarts(name);
    Take(ToUpper(FirstChars(SplitOnSpace(name))), 2)
  }

  /**
   * The reference definition of the word starts: every character that is
   * not a space and comes first or right after a space, in order.
   * `atStart` says whether the previous character was a space (or there
   * was none).
   */
  function StartsFrom(s: string, atStart: bool): string
  {
    if s == [] then "" else (if atStart && s[0] != ' ' then [s[0]] else "") + StartsFrom(s[1..], s[0] == ' ')
  }

  function WordStarts(s: string): string
  {
    StartsFrom(s, true)
  }

  /** Inside one word, only its first character can be a word start. */
  lemma {:induction false} WordThenRest(w: string, t: string, atStart: bool)
    requires ' ' !in w
    ensures StartsFrom(w + t, atStart) == (if atStart && w != "" then [w[0]] else "") + StartsFrom(t, atStart && w == "")
  {
    if w != "" {
      assert (w + t)[0] == w[0] && (w + t)[1..] == w[1..] + t;
      WordThenRest(w[1..], t, false);
      assert w[1..] == "" ==> w[1..] + t == t;
    } else {
      assert w + t == t;
    }
  }

  /** Splitting on spaces and taking each piece's first character finds exactly the word starts. */
  lemma {:induction false} FirstCharsAreWordStarts(s: string)
    ensures FirstChars(SplitOnSpace(s)) == WordStarts(s)
    decreases |s|
  {
    var i := IndexOfSpace(s);
    var w := s[..i];
    assert ' ' !in w;
    if i == |s| {
      assert s == w + "";
      WordThenRest(w, "", true);
      FirstCharsCons(s, []);
      assert [s] + [] == [s];
    } else {
      var rest := s[i + 1..];
      assert s == w + ([' '] + rest);
      WordThenRest(w, [' '] + rest, true);
      assert ([' '] + rest)[0] == ' ' && ([' '] + rest)[1..] == rest;
      assert StartsFrom([' '] + rest, w == "") == StartsFrom(rest, true);
      FirstCharsAreWordStarts(rest);
      assert SplitOnSpace(s) == [w] + SplitOnSpace(rest);
      FirstCharsCons(w, SplitOnSpace(rest));
    }
  }

  /** Repeated, leading and trailing spaces add no initial. */
  lemma {:induction false} SpacesAddNothing(n: nat, s: string, atStart: bool)
    ensures StartsFrom(Spaces(n) + s, atStart) == if n == 0 then StartsFrom(s, atStart) else StartsFrom(s, true)
  {
    if n > 0 {
      assert (Spaces(n) + s)[0] == ' ' && (Spaces(n) + s)[1..] == Spaces(n - 1) + s;
      SpacesAddNothing(n - 1, s, true);
    } else {
      assert Spaces(n) + s == s;
    }
  }

  function Spaces(n: nat): string
  {
    if n == 0 then "" else [' '] + Spaces(n - 1)
  }

  /** A name made only of spaces is shown with no initials at all. */
  lemma BlankNameHasNoInitials(n: nat)
    ensures Initials(Spaces(n)) == ""
  {
    SpacesAddNothing(n, "", true);
    assert Spaces(n) + "" == Spaces(n);
  }

  /** What the avatar shows. */
  datatype Content = Image(src: string) | Letters(text: string)

  /** `src ? <img> : name ? getInitials(name) : "?"`. */
  function AvatarContent(name: Option<string>, src: Option<string>): (c: Content)
    ensures c.Image? <==> Truthy(src)
    ensures c.Image? ==> c.src == src.value
    ensures !Truthy(src) && !Truthy(name) ==> c == Letters("?")
    ensures !Truthy(src) && Truthy(name) ==> c == Letters(Initials(name.value)) && |c.text| <= 2
  {
    if Truthy(src) then Image(src.value)
    else if Truthy(name) then Letters(Initials(name.value))
    else Letters("?")
  }
}
