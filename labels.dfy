/**
 The label transform of the conditions checkboxes: a global replace that
 puts one space in front of every ASCII capital letter `A`..`Z`.
 */
module Labels {

  predicate IsCapital(c: char)
  {
    'A' <= c <= 'Z'
  }

  /** The number of ASCII capital letters in `s`. */
  function CountCapitals(s: string): nat
  {
    if s == [] then 0 else (if IsCapital(s[0]) then 1 else 0) + CountCapitals(s[1..])
  }

  /**
   `s` with a space inserted before each capital letter; no other character
   is added, removed or reordered.
   */
  function SpaceBeforeCapitals(s: string): (r: string)
    ensures |r| == |s| + CountCapitals(s)
    ensures forall i :: 0 <= i < |r| && IsCapital(r[i]) ==> 0 < i && r[i - 1] == ' '
  {
    if s == [] then []
    else if IsCapital(s[0]) then [' ', s[0]] + SpaceBeforeCapitals(s[1..])
    else [s[0]] + SpaceBeforeCapitals(s[1..])
  }

  /**
   The reference inverse: drop every space that stands directly in front of
   a capital letter, keep everything else in order.
   */
  function DropSpaceBeforeCapitals(t: string): string
  {
    if t == [] then []
    else if |t| >= 2 && t[0] == ' ' && IsCapital(t[1]) then [t[1]] + DropSpaceBeforeCapitals(t[2..])
    else [t[0]] + DropSpaceBeforeCapitals(t[1..])
  }

  /** Removing the inserted spaces gives back the original text. */
  lemma {:induction false} RoundTrip(s: string)
    ensures DropSpaceBeforeCapitals(SpaceBeforeCapitals(s)) == s
  {
    if s != [] {
      RoundTrip(s[1..]);
      var rest := SpaceBeforeCapitals(s[1..]);
      if IsCapital(s[0]) {
        assert ([' ', s[0]] + rest)[2..] == rest;
      } else {
        assert ([s[0]] + rest)[1..] == rest;
      }
    }
  }

  /** A capitalised word without further capitals gets exactly one leading space. */
  lemma Word(c: char, w: string)
    requires IsCapital(c) && forall i :: 0 <= i < |w| ==> !IsCapital(w[i])
    ensures SpaceBeforeCapitals([c] + w) == [' ', c] + w
  {
    assert ([c] + w)[1..] == w;
    NoCapitals(w);
  }

  /** Three capitalised words in a row each get one leading space. */
  lemma ThreeWords(c1: char, w1: string, c2: char, w2: string, c3: char, w3: string)
    requires IsCapital(c1) && forall i :: 0 <= i < |w1| ==> !IsCapital(w1[i])
    requires IsCapital(c2) && forall i :: 0 <= i < |w2| ==> !IsCapital(w2[i])
    requires IsCapital(c3) && forall i :: 0 <= i < |w3| ==> !IsCapital(w3[i])
    ensures SpaceBeforeCapitals([c1] + w1 + ([c2] + w2 + ([c3] + w3)))
         == [' ', c1] + w1 + ([' ', c2] + w2 + ([' ', c3] + w3))
  {
    Word(c1, w1); Word(c2, w2); Word(c3, w3);
    Concatenation([c2] + w2, [c3] + w3);
    Concatenation([c1] + w1, [c2] + w2 + ([c3] + w3));
  }

  /** Text in which no character is a capital letter is left unchanged. */
  lemma {:induction false} NoCapitals(s: string)
    requires forall i :: 0 <= i < |s| ==> !IsCapital(s[i])
    ensures SpaceBeforeCapitals(s) == s
  {
    if s != [] {
      NoCapitals(s[1..]);
    }
  }

  /** The transform distributes over concatenation, as a global replace does. */
  lemma {:induction false} Concatenation(a: string, b: string)
    ensures SpaceBeforeCapitals(a + b) == SpaceBeforeCapitals(a) + SpaceBeforeCapitals(b)
  {
    if a != [] {
      assert (a + b)[1..] == a[1..] + b;
      Concatenation(a[1..], b);
    } else {
      assert a + b == b;
    }
  }
}
