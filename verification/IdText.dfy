/** The codec's loops, and the ID that parsing updates in place. */
module IdText {
  import opened Prelude
  import opened Text
  import opened Base32
  import opened Luhn
  import opened DeviceId

  method Luhnify(check: Check, s: Text) returns (r: Result<Text, Error>)
    requires |s| == DATA
    ensures r == if AllInAlphabet(s) then Ok(Luhnified(check, s)) else Err(InvalidDigit)
  {
    var res: seq<Text> := [];
    for i := 0 to 4
      invariant |res| == i
      invariant forall j :: 0 <= j < i * 13 ==> InAlphabet(s[j])
      invariant AllInAlphabet(s) ==> forall j :: 0 <= j < i ==> res[j] == CheckedGroup(check, s, j)
    {
      var chunk := s[i * 13..(i + 1) * 13];
      var l := Generate(check, chunk);
      if l == None {
        return Err(InvalidDigit);
      }
      assert forall j :: i * 13 <= j < (i + 1) * 13 ==> s[j] == chunk[j - i * 13];
      res := res + [chunk + [l.value]];
    }
    r := Ok(res[0] + res[1] + res[2] + res[3]);
  }

  method Unluhnify(check: Check, s: Text) returns (r: Result<Text, Error>)
    ensures r == if |s| != CHECKED then Err(IncorrectLength) else Unluhnified(check, s)
  {
    if |s| != CHECKED {
      return Err(IncorrectLength);
    }
    var res: seq<Text> := [];
    for i := 0 to 4
      invariant |res| == i
      invariant forall j :: 0 <= j < i ==> res[j] == DataGroup(s, j)
      invariant FirstFault(check, s, 0) == FirstFault(check, s, i)
    {
      var chunk := s[i * 14..(i + 1) * 14];
      assert chunk[..13] == DataGroup(s, i) && chunk[13] == s[i * 14 + 13];
      var l := Generate(check, chunk[..13]);
      if l == None {
        return Err(InvalidDigit);
      }
      if l.value != chunk[13] {
        return Err(CheckDigitIncorrect);
      }
      res := res + [chunk[..13]];
    }
    r := Ok(res[0] + res[1] + res[2] + res[3]);
  }

  class ID {
    var bytes: Id

    constructor ()
      ensures bytes == ZERO
    {
      bytes := ZERO;
    }

    method String(check: Check) returns (ss: Text)
      ensures ss == Spell(check, bytes)
    {
      SpellingData(bytes);
      var checked := Luhnify(check, Trim(EncodeToString(bytes), '='));
      ss := Chunkify(checked.value);
    }

    /** Parses a text into the receiver, which keeps its value when the text is rejected. */
    method UnmarshalText(check: Check, bs: Text) returns (err: Option<Error>)
      modifies this
      ensures match Parse(check, bs)
              case Ok(id) => err == None && bytes == id
              case Err(e) => err == Some(e) && bytes == old(bytes)
    {
      var id := Unchunkify(Untypeoify(ToUpper(Trim(bs, '='))));
      if |id| != CHECKED {
        return Some(IncorrectLength);
      }
      var data := Unluhnify(check, id);
      if data.Err? {
        return Some(data.error);
      }
      var dec := DecodeString(data.value + PADDING);
      if dec == None {
        return Some(CorruptBase32);
      }
      bytes := dec.value;
      err := None;
    }
  }
}
