/**
 * Invite keys (backend/app/services/invitation_service.py): shown in groups, typed back by hand.
 *
 * Python's `upper` maps each character to a string; it is a parameter here. Only its effect on ASCII
 * is fixed.
 */
module InviteKeys {
  import opened Sequences

  const KEY_ALPHABET: string := "ABCDEFGHJKLMNPQRSTUVWXYZ23456789"
  const KEY_LEN := 20
  const KEY_GROUP := 5

  predicate IsAscii(c: char) {
    c < 128 as char
  }

  function AsciiUpper(c: char): char {
    if 'a' <= c <= 'z' then c - 'a' + 'A' else c
  }

  /** `up` upper-cases ASCII characters as Python does. */
  ghost predicate UpperCases(up: char -> string) {
    forall c: char | IsAscii(c) :: up(c) == [AsciiUpper(c)]
  }

  /** `key.upper()`. */
  function Upper(up: char -> string, s: string): string {
    if s == [] then [] else up(s[0]) + Upper(up, s[1..])
  }

  /** The characters of the alphabet, in order. */
  function Keep(s: string): string {
    if s == [] then [] else (if s[0] in KEY_ALPHABET then [s[0]] else []) + Keep(s[1..])
  }

  /** `_normalize_key`. */
  function NormalizeKey(up: char -> string, key: string): string {
    Keep(Upper(up, key))
  }

  /** A raw key: `_KEY_LEN` characters of the alphabet. */
  predicate IsRawKey(raw: string) {
    |raw| == KEY_LEN && forall i | 0 <= i < |raw| :: raw[i] in KEY_ALPHABET
  }

  /** The display form: groups of `_KEY_GROUP` joined by dashes. */
  function Grouped(raw: string): string
    decreases |raw|
  {
    if |raw| <= KEY_GROUP then raw else raw[..KEY_GROUP] + "-" + Grouped(raw[KEY_GROUP..])
  }

  // ---------- What a teammate may type ----------

  /** The character vanishes in normalisation. */
  predicate IsStray(up: char -> string, c: char) {
    forall i | 0 <= i < |up(c)| :: up(c)[i] !in KEY_ALPHABET
  }

  /**
   * `typed` copies `shown`: the same letters in either case, with stray characters added anywhere and
   * separators possibly left out.
   */
  predicate Copies(up: char -> string, shown: string, typed: string)
    decreases |shown| + |typed|
  {
    || (shown == [] && typed == [])
    || (typed != [] && IsStray(up, typed[0]) && Copies(up, shown, typed[1..]))
    || (shown != [] && shown[0] !in KEY_ALPHABET && Copies(up, shown[1..], typed))
    || (shown != [] && typed != [] && IsAscii(typed[0]) && AsciiUpper(typed[0]) == shown[0]
        && Copies(up, shown[1..], typed[1..]))
  }

  lemma {:induction false} KeepAppend(a: string, b: string)
    ensures Keep(a + b) == Keep(a) + Keep(b)
  {
    if a == [] {
      assert a + b == b;
    } else {
      HeadOfSum(a, b);
      KeepAppend(a[1..], b);
      Associate(if a[0] in KEY_ALPHABET then [a[0]] else [], Keep(a[1..]), Keep(b));
    }
  }

  lemma {:induction false} StrayVanishes(s: string)
    requires forall i | 0 <= i < |s| :: s[i] !in KEY_ALPHABET
    ensures Keep(s) == []
  {
    if s != [] {
      StrayVanishes(s[1..]);
    }
  }

  lemma {:induction false} LettersStay(s: string)
    requires forall i | 0 <= i < |s| :: s[i] in KEY_ALPHABET
    ensures Keep(s) == s
  {
    if s != [] {
      LettersStay(s[1..]);
    }
  }

  /** Normalising typed text character by character. */
  lemma {:induction false} NormalizeStep(up: char -> string, typed: string)
    requires typed != []
    ensures NormalizeKey(up, typed) == Keep(up(typed[0])) + NormalizeKey(up, typed[1..])
    ensures IsStray(up, typed[0]) ==> Keep(up(typed[0])) == []
  {
    KeepAppend(up(typed[0]), Upper(up, typed[1..]));
    if IsStray(up, typed[0]) {
      StrayVanishes(up(typed[0]));
    }
  }

  lemma {:induction false} KeepOne(c: char)
    ensures Keep([c]) == if c in KEY_ALPHABET then [c] else []
  {
    assert [c][1..] == [];
  }

  /** Every copy normalises to the letters shown. */
  lemma {:induction false} CopiesNormalize(up: char -> string, shown: string, typed: string)
    requires UpperCases(up) && Copies(up, shown, typed)
    ensures NormalizeKey(up, typed) == Keep(shown)
    decreases |shown| + |typed|
  {
    if shown == [] && typed == [] {
    } else if typed != [] && IsStray(up, typed[0]) && Copies(up, shown, typed[1..]) {
      NormalizeStep(up, typed);
      CopiesNormalize(up, shown, typed[1..]);
    } else if shown != [] && shown[0] !in KEY_ALPHABET && Copies(up, shown[1..], typed) {
      CopiesNormalize(up, shown[1..], typed);
    } else {
      NormalizeStep(up, typed);
      KeepOne(shown[0]);
      CopiesNormalize(up, shown[1..], typed[1..]);
    }
  }

  /** Among ASCII inputs nothing else does. */
  lemma {:induction false} NormalizedIsCopy(up: char -> string, shown: string, typed: string)
    requires UpperCases(up) && (forall i | 0 <= i < |typed| :: IsAscii(typed[i]))
    requires NormalizeKey(up, typed) == Keep(shown)
    ensures Copies(up, shown, typed)
    decreases |shown| + |typed|
  {
    if typed != [] {
      NormalizeStep(up, typed);
      KeepOne(AsciiUpper(typed[0]));
    }
    if shown != [] && shown[0] !in KEY_ALPHABET {
      NormalizedIsCopy(up, shown[1..], typed);
    } else if typed != [] && AsciiUpper(typed[0]) !in KEY_ALPHABET {
      NormalizedIsCopy(up, shown, typed[1..]);
    } else if typed != [] {
      HeadsAndTails(AsciiUpper(typed[0]), NormalizeKey(up, typed[1..]), shown);
      NormalizedIsCopy(up, shown[1..], typed[1..]);
    } else {
      assert shown == [];
    }
  }

  lemma {:induction false} HeadsAndTails(c: char, rest: string, shown: string)
    requires [c] + rest == Keep(shown) && (shown != [] ==> shown[0] in KEY_ALPHABET)
    ensures shown != [] && shown[0] == c && rest == Keep(shown[1..])
  {
    assert shown != [];
    assert ([c] + rest)[0] == c && ([c] + rest)[1..] == rest;
    assert ([shown[0]] + Keep(shown[1..]))[1..] == Keep(shown[1..]);
  }

  /** Grouping only adds dashes. */
  lemma {:induction false} KeepGrouped(raw: string)
    requires forall i | 0 <= i < |raw| :: raw[i] in KEY_ALPHABET
    ensures Keep(Grouped(raw)) == raw
    decreases |raw|
  {
    if |raw| <= KEY_GROUP {
      LettersStay(raw);
    } else {
      var head, tail := raw[..KEY_GROUP], raw[KEY_GROUP..];
      LettersStay(head);
      KeepGrouped(tail);
      KeepOne('-');
      KeepAppend(head, "-");
      KeepAppend(head + "-", Grouped(tail));
      assert raw == head + tail;
    }
  }

  /**
   * For ASCII input `_normalize_key` recovers the raw key from what was typed exactly when the typed
   * text copies the grouped display: any case, stray characters anywhere, dashes optional. The forward
   * half needs no ASCII assumption.
   */
  lemma {:induction false} NormalizeRecoversKey(up: char -> string, raw: string, typed: string)
    requires UpperCases(up) && IsRawKey(raw)
    ensures Copies(up, Grouped(raw), typed) ==> NormalizeKey(up, typed) == raw
    ensures (forall i | 0 <= i < |typed| :: IsAscii(typed[i])) ==>
              (NormalizeKey(up, typed) == raw <==> Copies(up, Grouped(raw), typed))
  {
    KeepGrouped(raw);
    if Copies(up, Grouped(raw), typed) {
      CopiesNormalize(up, Grouped(raw), typed);
    }
    if (forall i | 0 <= i < |typed| :: IsAscii(typed[i])) && NormalizeKey(up, typed) == raw {
      NormalizedIsCopy(up, Grouped(raw), typed);
    }
  }

  /** The display form is `XXXXX-XXXXX-XXXXX-XXXXX`. */
  lemma {:induction false} DisplayForm(raw: string)
    requires IsRawKey(raw)
    ensures Grouped(raw) == raw[..5] + "-" + raw[5..10] + "-" + raw[10..15] + "-" + raw[15..]
  {
    assert raw[5..][5..] == raw[10..] && raw[10..][5..] == raw[15..];
    assert raw[5..][..5] == raw[5..10] && raw[10..][..5] == raw[10..15];
    assert Grouped(raw[15..]) == raw[15..];
    assert Grouped(raw[10..]) == raw[10..15] + "-" + raw[15..];
    assert Grouped(raw[5..]) == raw[5..10] + "-" + (raw[10..15] + "-" + raw[15..]);
  }

  /** Upper-case letters and digits without the ones easily mistaken: no I, O, 0 or 1. */
  predicate IsKeyLetter(c: char) {
    ('A' <= c <= 'Z' && c != 'I' && c != 'O') || '2' <= c <= '9'
  }

  /** A key is twenty such letters. */
  lemma {:induction false} KeysAreUnambiguous(raw: string)
    ensures IsRawKey(raw) <==> |raw| == 20 && forall i | 0 <= i < |raw| :: IsKeyLetter(raw[i])
  {
    forall i | 0 <= i < |raw| ensures raw[i] in KEY_ALPHABET <==> IsKeyLetter(raw[i]) {
      LetterOfAlphabet(raw[i]);
    }
  }

  lemma {:induction false} LetterOfAlphabet(c: char)
    ensures c in KEY_ALPHABET <==> IsKeyLetter(c)
  {
  }
}
