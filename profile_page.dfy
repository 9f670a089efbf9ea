/**
 * The avatar initials of the profile page (`app/profile/page.tsx`, `getInitials`): the first
 * character of each space-separated piece of the name, the first two pieces only, upper-cased.
 * An empty piece (from a leading or doubled space) has no first character: `n[0]` is
 * `undefined`, which `join('')` writes as nothing.
 */
module ProfilePage {
  import opened Strings

  /** `(n) => n[0]`, with the empty string standing for `undefined`. */
  function FirstChar(piece: string): (r: string)
    ensures |r| <= 1
    ensures piece != "" ==> r == [piece[0]]
    ensures piece == "" ==> r == ""
  {
    if piece == "" then "" else [piece[0]]
  }

  function Firsts(pieces: seq<string>): (r: seq<string>)
    ensures |r| == |pieces|
    ensures forall i | 0 <= i < |pieces| :: r[i] == FirstChar(pieces[i])
  {
    seq(|pieces|, i requires 0 <= i < |pieces| => FirstChar(pieces[i]))
  }

  /** `.slice(0, 2)`. */
  function TakeTwo(s: seq<string>): (r: seq<string>)
    ensures |r| == if |s| < 2 then |s| else 2
    ensures r == s[..|r|]
  {
    if |s| < 2 then s else s[..2]
  }

  /**
   * `name.split(' ').map((n) => n[0]).slice(0, 2).join('').toUpperCase()`: at most two
   * initials, none of them a lower-case ASCII letter.
   */
  function GetInitials(name: string): (r: string)
    ensures |r| <= 2
    ensures forall i | 0 <= i < |r| :: !('a' <= r[i] <= 'z')
  {
    ConcatShort(TakeTwo(Firsts(Split(name, ' '))));
    ToUpper(Concat(TakeTwo(Firsts(Split(name, ' ')))))
  }

  /** The concatenation of at most two strings of at most one character each. */
  lemma ConcatShort(parts: seq<string>)
    requires |parts| <= 2 && forall i | 0 <= i < |parts| :: |parts[i]| <= 1
    ensures |Concat(parts)| <= 2
    ensures |parts| == 1 ==> Concat(parts) == parts[0]
    ensures |parts| == 2 ==> Concat(parts) == parts[0] + parts[1]
  {
    if |parts| == 1 {
      assert Concat(parts) == parts[0] + Concat([]);
    } else if |parts| == 2 {
      assert parts[1..][1..] == [];
      assert Concat(parts[1..]) == parts[1] + Concat([]);
    }
  }

  /** No name, no initials. */
  lemma EmptyName()
    ensures GetInitials("") == ""
  {
    SplitNoSeparator("", ' ');
  }

  /** With two pieces or more, the initials come from the first two. */
  lemma FirstTwoPieces(pieces: seq<string>)
    requires |pieces| >= 2
    ensures Concat(TakeTwo(Firsts(pieces))) == FirstChar(pieces[0]) + FirstChar(pieces[1])
  {
    var two := TakeTwo(Firsts(pieces));
    assert two == [FirstChar(pieces[0]), FirstChar(pieces[1])];
    ConcatShort(two);
  }

  /** A first and a last name without spaces give their two capitalised first letters. */
  lemma TwoWords(first: string, last: string)
    requires first != "" && last != "" && ' ' !in first && ' ' !in last
    ensures GetInitials(first + " " + last) == [UpperChar(first[0]), UpperChar(last[0])]
  {
    SplitAtFirst(first, last, ' ');
    SplitNoSeparator(last, ' ');
    var pieces := Split(first + " " + last, ' ');
    assert pieces == [first, last];
    FirstTwoPieces(pieces);
  }

  /** A further word is ignored: only the first two pieces count. */
  lemma ThreeWords(first: string, middle: string, last: string)
    requires first != "" && middle != "" && ' ' !in first && ' ' !in middle
    ensures GetInitials(first + " " + middle + " " + last) == [UpperChar(first[0]), UpperChar(middle[0])]
  {
    var rest := middle + " " + last;
    assert first + " " + middle + " " + last == first + [' '] + rest;
    SplitAtFirst(first, rest, ' ');
    SplitAtFirst(middle, last, ' ');
    var pieces := Split(first + " " + middle + " " + last, ' ');
    assert pieces == [first] + ([middle] + Split(last, ' '));
    assert pieces[0] == first && pieces[1] == middle;
    FirstTwoPieces(pieces);
  }

  /** A leading space spends one of the two slots on an empty piece, leaving a single initial. */
  lemma LeadingSpace(first: string, last: string)
    requires first != "" && ' ' !in first
    ensures GetInitials(" " + first + " " + last) == [UpperChar(first[0])]
  {
    var rest := first + " " + last;
    assert " " + first + " " + last == "" + [' '] + rest;
    SplitAtFirst("", rest, ' ');
    SplitAtFirst(first, last, ' ');
    var pieces := Split(" " + first + " " + last, ' ');
    assert pieces == [""] + ([first] + Split(last, ' '));
    assert pieces[0] == "" && pieces[1] == first;
    FirstTwoPieces(pieces);
  }
}
