/** Text helpers of the board printout: improvement marks, fixed-width cells and
    the tokens standing on a square. */
module Display {
  import opened Text
  import opened Players

  /** One 'I' per improvement; nothing for a count of zero or less. */
  function MakeImprovements(count: int): (r: string)
    ensures count <= 0 ==> r == ""
    ensures count > 0 ==> |r| == count
    ensures forall k :: 0 <= k < |r| ==> r[k] == 'I'
  {
    if count <= 0 then "" else Repeat('I', count)
  }

  /** Cuts a string to the cell width or pads it with spaces up to it. A negative
      width is taken by the cut as "no limit", which keeps the string whole. */
  function FitToWidth(s: string, width: int): (r: string)
    ensures width >= 0 ==> |r| == width
    ensures width < 0 ==> r == s
    ensures width >= 0 && |s| >= width ==> r == s[..width]
    ensures |s| < width ==> r[..|s|] == s && forall k :: |s| <= k < |r| ==> r[k] == ' '
  {
    if |s| >= width then (if width >= 0 then s[..width] else s)
    else s + Repeat(' ', width - |s|)
  }

  /** Fitting to a width twice is fitting once. */
  lemma FitToWidthIdempotent(s: string, width: int)
    ensures FitToWidth(FitToWidth(s, width), width) == FitToWidth(s, width)
  {
  }

  /** Fitting keeps exactly the characters that fit: the prefix of the string up
      to the width, padded with spaces. */
  lemma FitToWidthPrefix(s: string, width: int, k: int)
    requires 0 <= k < width
    ensures FitToWidth(s, width)[k] == (if k < |s| then s[k] else ' ')
  {
  }

  /** The tokens of the players on a square, in the order of the player list,
      each followed by the separator. */
  ghost function TokensOn(ps: seq<Player>, square: int, sep: string): string
    reads set i | 0 <= i < |ps| :: ps[i]
  {
    if ps == [] then ""
    else
      var last := ps[|ps| - 1];
      TokensOn(ps[..|ps| - 1], square, sep) + (if last.position == square then last.token + sep else "")
  }

  /** Collects the tokens on a square in player order, a space after each. */
  method PlayersOnSquare(square: int, ps: seq<Player>) returns (r: string)
    ensures r == TokensOn(ps, square, " ")
  {
    r := "";
    for k := 0 to |ps|
      invariant r == TokensOn(ps[..k], square, " ")
    {
      assert ps[..k + 1][..k] == ps[..k];
      if ps[k].position == square {
        r := r + ps[k].token;
        r := r + " ";
      }
    }
    assert ps[..|ps|] == ps;
  }

  /** When nobody stands on the square the text is empty; with a non-empty
      separator, an empty text also means nobody stands there. */
  lemma {:induction false} TokensOnEmpty(ps: seq<Player>, square: int, sep: string)
    ensures (forall i :: 0 <= i < |ps| ==> ps[i].position != square) ==> TokensOn(ps, square, sep) == ""
    ensures sep != "" && TokensOn(ps, square, sep) == "" ==> forall i :: 0 <= i < |ps| ==> ps[i].position != square
  {
    if ps != [] {
      var front := ps[..|ps| - 1];
      TokensOnEmpty(front, square, sep);
      assert forall i :: 0 <= i < |front| ==> front[i] == ps[i];
    }
  }

  /** Number of players in the list standing on the square. */
  ghost function CountOn(ps: seq<Player>, square: int): (n: nat)
    reads set i | 0 <= i < |ps| :: ps[i]
    ensures n <= |ps|
  {
    if ps == [] then 0
    else CountOn(ps[..|ps| - 1], square) + (if ps[|ps| - 1].position == square then 1 else 0)
  }

  /** Total length of the tokens of the players on the square. */
  ghost function TokenColumns(ps: seq<Player>, square: int): (n: nat)
    reads set i | 0 <= i < |ps| :: ps[i]
    ensures ps == [] ==> n == 0
  {
    if ps == [] then 0
    else TokenColumns(ps[..|ps| - 1], square) + (if ps[|ps| - 1].position == square then |ps[|ps| - 1].token| else 0)
  }

  /** The text takes each on-square player's token and one separator: its length
      is the tokens' total length plus one separator per player on the square. */
  lemma {:induction false} TokensOnLength(ps: seq<Player>, square: int, sep: string)
    ensures |TokensOn(ps, square, sep)| == TokenColumns(ps, square) + |sep| * CountOn(ps, square)
  {
    if ps != [] {
      var front := ps[..|ps| - 1];
      TokensOnLength(front, square, sep);
      var c := CountOn(front, square);
      assert |sep| * (c + 1) == |sep| * c + |sep|;
    }
  }

  /** With one-character tokens, the tokens take one column per player on the square. */
  lemma {:induction false} SingleCharacterColumns(ps: seq<Player>, square: int)
    requires forall i :: 0 <= i < |ps| ==> |ps[i].token| == 1
    ensures TokenColumns(ps, square) == CountOn(ps, square)
  {
    if ps != [] {
      SingleCharacterColumns(ps[..|ps| - 1], square);
    }
  }

  /** So with one-character tokens and a space after each, every player on the
      square takes two columns. */
  lemma SingleCharacterTokensOnLength(ps: seq<Player>, square: int)
    requires forall i :: 0 <= i < |ps| ==> |ps[i].token| == 1
    ensures |TokensOn(ps, square, " ")| == 2 * CountOn(ps, square)
  {
    TokensOnLength(ps, square, " ");
    SingleCharacterColumns(ps, square);
  }

  /** Every token on the square appears in the text, followed by a space. */
  lemma {:induction false} TokensOnContains(ps: seq<Player>, square: int, i: int)
    requires 0 <= i < |ps| && ps[i].position == square
    ensures exists a, b :: TokensOn(ps, square, " ") == a + ps[i].token + " " + b
  {
    var front := ps[..|ps| - 1];
    if i == |ps| - 1 {
      var a := TokensOn(front, square, " ");
      assert TokensOn(ps, square, " ") == a + ps[i].token + " " + "";
    } else {
      assert front[i] == ps[i];
      TokensOnContains(front, square, i);
      var a, b :| TokensOn(front, square, " ") == a + ps[i].token + " " + b;
      var tail := if ps[|ps| - 1].position == square then ps[|ps| - 1].token + " " else "";
      assert TokensOn(ps, square, " ") == a + ps[i].token + " " + (b + tail);
    }
  }
}
