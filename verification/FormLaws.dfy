/** Which multipart forms are accepted, told by their text and their framing. */
module FormLaws {
  import opened Outcomes
  import opened Multipart

  predicate LetterOrDigit(c: char) {
    0x41 <= c as int <= 0x5a || 0x61 <= c as int <= 0x7a || 0x30 <= c as int <= 0x39
  }

  /** A token of section 5.6.2 of RFC 9110: visible ASCII characters other than the delimiters. */
  predicate IsToken(text: string) {
    |text| >= 1 && forall i :: 0 <= i < |text| ==> 0x21 <= text[i] as int <= 0x7e && text[i] !in "\"(),/:;<=>?@[\\]{}"
  }

  /** A type and a subtype with a slash between them. */
  ghost predicate IsMediaType(value: string) {
    |value| <= 255 && exists kind, subtype :: IsToken(kind) && IsToken(subtype) && value == kind + "/" + subtype
  }

  predicate IsName(name: string) {
    1 <= |name| <= 64 && forall i :: 0 <= i < |name| ==> LetterOrDigit(name[i]) || name[i] in "_-"
  }

  predicate IsFilename(name: string) {
    1 <= |name| <= 255 && forall i :: 0 <= i < |name| ==> LetterOrDigit(name[i]) || name[i] in "_-."
  }

  lemma TokenCharIff(c: char)
    ensures TokenChar(c) <==> 0x21 <= c as int <= 0x7e && c !in "\"(),/:;<=>?@[\\]{}"
  {
  }

  lemma TokenIff(text: string)
    ensures IsToken(text) <==> |text| >= 1 && forall i :: 0 <= i < |text| ==> TokenChar(text[i])
  {
    forall i | 0 <= i < |text| ensures TokenChar(text[i]) <==> 0x21 <= text[i] as int <= 0x7e && text[i] !in "\"(),/:;<=>?@[\\]{}" {
      TokenCharIff(text[i]);
    }
  }

  lemma BoundaryIsValidIff(boundary: string)
    ensures ValidBoundary(boundary) <==> IsToken(boundary) && |boundary| <= 70
  {
    TokenIff(boundary);
  }

  lemma TypeHasTokens(value: string, k: nat)
    requires 0 < k < |value| - 1 && value[k] == '/' && forall i :: 0 <= i < |value| && i != k ==> TokenChar(value[i])
    ensures IsToken(value[..k]) && IsToken(value[k + 1..]) && value == value[..k] + "/" + value[k + 1..]
  {
    TokenIff(value[..k]);
    TokenIff(value[k + 1..]);
  }

  lemma TokensMakeType(kind: string, subtype: string)
    requires IsToken(kind) && IsToken(subtype)
    ensures var value, k := kind + "/" + subtype, |kind|;
            0 < k < |value| - 1 && value[k] == '/' && forall i :: 0 <= i < |value| && i != k ==> TokenChar(value[i])
  {
    TokenIff(kind);
    TokenIff(subtype);
  }

  lemma MediaTypeIsValidIff(value: string)
    ensures ValidContentType(value) <==> IsMediaType(value)
  {
    if ValidContentType(value) {
      var k :| 0 < k < |value| - 1 && value[k] == '/' && forall i :: 0 <= i < |value| && i != k ==> TokenChar(value[i]);
      TypeHasTokens(value, k);
    }
    if IsMediaType(value) {
      var kind, subtype :| IsToken(kind) && IsToken(subtype) && value == kind + "/" + subtype;
      TokensMakeType(kind, subtype);
    }
  }

  /** What is wrong with a part, the first complaint in this order. */
  lemma PartIsValidIff(part: Part)
    ensures PartError(part) ==
              if !IsName(part.name) then Some(InvalidPartName)
              else if part.filename.Some? && !IsFilename(part.filename.value) then Some(InvalidFilename)
              else if part.contentType.Some? && !IsMediaType(part.contentType.value) then Some(InvalidContentType)
              else None
    ensures ValidPart(part) <==> PartError(part).None?
  {
    if part.contentType.Some? {
      MediaTypeIsValidIff(part.contentType.value);
    }
  }

  /** The source declares just what it holds. */
  predicate Declares(source: Source) {
    source.Port? ==> source.declared == Some(|source.rest|)
  }

  lemma {:induction false} DeclaredIsFramed(parts: seq<Part>, boundary: string, count: nat)
    requires count <= |parts| && forall i :: 0 <= i < count ==> Declares(parts[i].source)
    ensures DeclaredBefore(parts, boundary, count) == |Encapsulated(parts, boundary, count)|
  {
    if count > 0 {
      DeclaredIsFramed(parts, boundary, count - 1);
      EncapsulatedNext(parts, boundary, count - 1);
      assert |Octets(Prefix(parts[count - 1], boundary, count - 1))| == |Prefix(parts[count - 1], boundary, count - 1)|;
      assert DeclaredBytes(parts[count - 1].source) == |parts[count - 1].source.rest|;
    }
  }

  /** A form of sources that declare what they hold is accepted exactly if it has one to sixteen parts,
      a boundary and parts in order, and a framing of at most 512 MiB. */
  lemma FormIsAcceptedIff(parts: seq<Part>, boundary: string)
    requires forall i :: 0 <= i < |parts| ==> Declares(parts[i].source)
    ensures AcceptableForm(parts, boundary) <==>
              && 1 <= |parts| <= 16 && IsToken(boundary) && |boundary| <= 70
              && (forall i :: 0 <= i < |parts| ==> PartError(parts[i]).None?)
              && |Framing(parts, boundary)| <= 536_870_912
  {
    BoundaryIsValidIff(boundary);
    AcceptableMeans(parts, boundary, |parts|);
    DeclaredIsFramed(parts, boundary, |parts|);
    FramingIsClosed(parts, boundary);
    forall i | 0 <= i < |parts| ensures ValidPart(parts[i]) <==> PartError(parts[i]).None? {
      PartIsValidIff(parts[i]);
    }
  }
}
