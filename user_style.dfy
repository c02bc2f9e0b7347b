/**
 * `generateUserStyle` of store.tsx: a badge colour chosen by a string hash
 * of the username, and the two-letter initials.
 *
 * The hash follows JavaScript number semantics: `hash << 5` converts
 * `hash` to a 32-bit signed integer and wraps the shifted result to 32
 * bits, while `- hash` and `+ charCodeAt(i)` are exact arithmetic on
 * doubles, so `hash` itself is not kept in 32 bits. Every value stays an
 * integer well inside 2^53 for usernames shorter than 2^21 characters
 * (`HashBound`), where doubles are exact, so unbounded integers model it
 * exactly.
 */
module UserStyle {
  import opened Text

  const Two32: int := 0x1_0000_0000
  const Two31: int := 0x8000_0000

  /** The six badge classes, in the order the source lists them. */
  const Colors: seq<string> := [
    "bg-purple-100 text-purple-600",
    "bg-blue-100 text-blue-600",
    "bg-green-100 text-green-600",
    "bg-yellow-100 text-yellow-600",
    "bg-pink-100 text-pink-600",
    "bg-orange-100 text-orange-600"
  ]

  /** ECMAScript ToInt32 on an integer-valued number. */
  function Wrap32(x: int): (r: int)
    ensures -Two31 <= r < Two31
    ensures (r - x) % Two32 == 0
  {
    (x + Two31) % Two32 - Two31
  }

  /** `h << 5`. */
  function ShiftLeft5(h: int): (r: int)
    ensures -Two31 <= r < Two31
    ensures (r - 32 * h) % Two32 == 0
  {
    ShiftWraps(h);
    Wrap32(Wrap32(h) * 32)
  }

  lemma ShiftWraps(h: int)
    ensures (Wrap32(Wrap32(h) * 32) - 32 * h) % Two32 == 0
  {
    var w := Wrap32(h);
    var k := (w - h) / Two32;
    assert w - h == k * Two32;
    var r := Wrap32(w * 32);
    var m := (r - w * 32) / Two32;
    assert r - w * 32 == m * Two32;
    ShiftCombine(r, w, h, m, k);
  }

  /** Two multiples of 2^32 combine: the step `ShiftWraps` needs, kept apart because it is nonlinear. */
  lemma ShiftCombine(r: int, w: int, h: int, m: int, k: int)
    requires r - w * 32 == m * Two32 && w - h == k * Two32
    ensures (r - 32 * h) % Two32 == 0
  {
    assert 32 * (w - h) == (32 * k) * Two32;
    assert r - 32 * h == (r - w * 32) + 32 * (w - h);
    assert r - 32 * h == (m + 32 * k) * Two32;
  }

  /** One loop step: `hash = username.charCodeAt(i) + ((hash << 5) - hash)`. */
  function HashStep(h: int, c: char): int {
    (c as int) + (ShiftLeft5(h) - h)
  }

  /** The hash after the loop has read all of `s`, a left fold of `HashStep` from 0. */
  function HashOf(s: string): int
    decreases |s|
  {
    if s == [] then 0 else HashStep(HashOf(s[..|s| - 1]), s[|s| - 1])
  }

  function Abs(x: int): nat {
    if x < 0 then -x else x
  }

  /** The style `generateUserStyle` returns, as a reference definition. */
  function StyleIndex(username: string): (i: nat)
    ensures i < |Colors|
  {
    Abs(HashOf(username)) % |Colors|
  }

  function InitialsOf(username: string): (r: string)
    ensures username == "" ==> r == "??"
    ensures username != "" ==> |r| == (if |username| < 2 then |username| else 2)
    ensures username != "" ==> forall i :: 0 <= i < |r| ==> r[i] == UpperChar(username[i])
  {
    if username != "" then ToUpper(Take(username, 2)) else "??"
  }

  method GenerateUserStyle(username: string) returns (color: string, initials: string)
    ensures color == Colors[StyleIndex(username)] && color in Colors
    ensures initials == InitialsOf(username)
  {
    var colors := Colors;
    var hash := 0;
    if username != "" {
      var i := 0;
      while i < |username|
        invariant 0 <= i <= |username|
        invariant hash == HashOf(username[..i])
      {
        assert username[..i + 1][..i] == username[..i];
        hash := (username[i] as int) + (ShiftLeft5(hash) - hash);
        i := i + 1;
      }
      assert username[..i] == username;
    }
    var index := Abs(hash) % |colors|;
    color := colors[index];
    initials := if username != "" then ToUpper(Take(username, 2)) else "??";
  }

  /** The widest a code point can be. */
  const MaxChar: int := 0x10FFFF

  const StepBound: int := Two31 + MaxChar

  /** Each character moves the hash by less than 2^31 + 0x10FFFF, so it stays exact in a double. */
  lemma {:induction false} HashBound(s: string)
    ensures -(|s| * StepBound) <= HashOf(s) <= |s| * StepBound
    decreases |s|
  {
    if s != [] {
      var p := s[..|s| - 1];
      HashBound(p);
      var h := HashOf(p);
      var c := s[|s| - 1] as int;
      assert 0 <= c <= MaxChar;
      assert HashOf(s) == c + ShiftLeft5(h) - h;
      assert |s| * StepBound == |p| * StepBound + StepBound;
    }
  }

  /** The shift folds the first character in at 31 times its code: "ab" hashes to 98 + 31 * 97. */
  lemma HashTwoLetters(a: char, b: char)
    ensures HashOf([a, b]) == (b as int) + 31 * (a as int)
  {
    var s := [a, b];
    assert s[..1] == [a];
    assert [a][..0] == [];
    assert HashOf([a]) == a as int;
    assert ShiftLeft5(a as int) == 32 * (a as int);
  }
}
