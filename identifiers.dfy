/**
 * Contact identifiers and their normal form (`normalizeIdentifier`): an
 * email is trimmed and lower-cased, a phone number loses every whitespace
 * character, and any other identifier is trimmed.
 */
module Identifiers {
  import opened Text

  /** `IdentifierType`. */
  datatype IdentifierType = Email | Phone | SupabaseUserId | External

  /** `ContactIdentifier`. */
  datatype ContactIdentifier = ContactIdentifier(kind: IdentifierType, value: string)

  /** `replace(/\s+/g, "")`. */
  function RemoveWhitespace(s: string): (r: string)
    ensures NoWhitespace(r) && |r| <= |s|
  {
    if s == [] then []
    else (if IsWhitespace(s[0]) then [] else [s[0]]) + RemoveWhitespace(s[1..])
  }

  /** `normalizeIdentifier`. */
  function Normalize(i: ContactIdentifier): (r: ContactIdentifier)
    ensures r.kind == i.kind
    ensures r.kind == Phone ==> NoWhitespace(r.value)
    ensures r.kind == Email ==> NoAsciiUpper(r.value)
    ensures r.kind != Phone ==> r.value == [] || (!IsWhitespace(r.value[0]) && !IsWhitespace(r.value[|r.value| - 1]))
  {
    match i.kind
    case Email =>
      var t := Trim(i.value);
      LeadingOfLower(t);
      TrailingOfLower(t);
      i.(value := ToLower(t))
    case Phone => i.(value := RemoveWhitespace(i.value))
    case _ => i.(value := Trim(i.value))
  }

  /** Removing the whitespace of a text that has none changes nothing. */
  lemma {:induction false} RemoveWhitespaceOfClean(s: string)
    requires NoWhitespace(s)
    ensures RemoveWhitespace(s) == s
  {
    if s != [] {
      RemoveWhitespaceOfClean(s[1..]);
    }
  }

  /** Whitespace is removed piece by piece. */
  lemma {:induction false} RemoveWhitespaceAppend(a: string, b: string)
    ensures RemoveWhitespace(a + b) == RemoveWhitespace(a) + RemoveWhitespace(b)
  {
    if a != [] {
      assert (a + b)[0] == a[0];
      assert (a + b)[1..] == a[1..] + b;
      RemoveWhitespaceAppend(a[1..], b);
      var head: string := if IsWhitespace(a[0]) then [] else [a[0]];
      assert RemoveWhitespace(a + b) == head + RemoveWhitespace(a[1..] + b);
      assert RemoveWhitespace(a) == head + RemoveWhitespace(a[1..]);
      assert head + (RemoveWhitespace(a[1..]) + RemoveWhitespace(b))
          == head + RemoveWhitespace(a[1..]) + RemoveWhitespace(b);
    } else {
      assert a + b == b;
    }
  }

  /** A blank text disappears entirely. */
  lemma {:induction false} RemoveWhitespaceOfBlank(w: string)
    requires AllWhitespace(w)
    ensures RemoveWhitespace(w) == []
  {
    if w != [] {
      RemoveWhitespaceOfBlank(w[1..]);
    }
  }

  /** Normalising twice is normalising once. */
  lemma NormalizeIdempotent(i: ContactIdentifier)
    ensures Normalize(Normalize(i)) == Normalize(i)
  {
    var n := Normalize(i);
    match i.kind
    case Email =>
      TrimToLower(Trim(i.value));
      TrimIdempotent(i.value);
      ToLowerIdempotent(Trim(i.value));
    case Phone =>
      RemoveWhitespaceOfClean(n.value);
    case _ =>
      TrimIdempotent(i.value);
  }

  /** Emails that differ only in the case of their letters normalise alike. */
  lemma EmailCaseIgnored(a: string, b: string)
    requires ToLower(a) == ToLower(b)
    ensures Normalize(ContactIdentifier(Email, a)) == Normalize(ContactIdentifier(Email, b))
  {
    TrimToLower(a);
    TrimToLower(b);
  }

  /** Whitespace around a value never matters, whatever the type. */
  lemma SurroundingWhitespaceIgnored(kind: IdentifierType, pre: string, v: string, post: string)
    requires AllWhitespace(pre) && AllWhitespace(post)
    ensures Normalize(ContactIdentifier(kind, pre + v + post)) == Normalize(ContactIdentifier(kind, v))
  {
    if kind == Phone {
      RemoveWhitespaceAppend(pre + v, post);
      RemoveWhitespaceAppend(pre, v);
      RemoveWhitespaceOfBlank(pre);
      RemoveWhitespaceOfBlank(post);
    } else {
      TrimIgnoresSurrounding(pre, v, post);
    }
  }

  /** Phone numbers that differ only in whitespace inside them normalise
      alike. */
  lemma PhoneSpacingIgnored(x: string, w: string, y: string)
    requires AllWhitespace(w)
    ensures Normalize(ContactIdentifier(Phone, x + w + y)) == Normalize(ContactIdentifier(Phone, x + y))
  {
    RemoveWhitespaceAppend(x + w, y);
    RemoveWhitespaceAppend(x, w);
    RemoveWhitespaceAppend(x, y);
    RemoveWhitespaceOfBlank(w);
  }

  /** Case survives for the types other than email, and an email is
      lowered. */
  lemma ExampleCase()
    ensures Normalize(ContactIdentifier(External, "AbC")).value == "AbC"
    ensures Normalize(ContactIdentifier(Email, "AbC")).value == "abc"
  {
    TrimOfTrimmed("AbC");
  }
}
