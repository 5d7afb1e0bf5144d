/** Code page 437 has no character twice, so its decoding loses nothing. */
module SieCodePage {
  import opened Common
  import opened SieText

  /** The byte of a character code above 127, or -1: the code page read the other way. */
  function ByteOf(code: int): int {
    if code == 199 then 128 else if code == 252 then 129 else if code == 233 then 130
    else if code == 226 then 131 else if code == 228 then 132 else if code == 224 then 133
    else if code == 229 then 134 else if code == 231 then 135 else if code == 234 then 136
    else if code == 235 then 137 else if code == 232 then 138 else if code == 239 then 139
    else if code == 238 then 140 else if code == 236 then 141 else if code == 196 then 142
    else if code == 197 then 143 else if code == 201 then 144 else if code == 230 then 145
    else if code == 198 then 146 else if code == 244 then 147 else if code == 246 then 148
    else if code == 242 then 149 else if code == 251 then 150 else if code == 249 then 151
    else if code == 255 then 152 else if code == 214 then 153 else if code == 220 then 154
    else if code == 162 then 155 else if code == 163 then 156 else if code == 165 then 157
    else if code == 8359 then 158 else if code == 402 then 159 else if code == 225 then 160
    else if code == 237 then 161 else if code == 243 then 162 else if code == 250 then 163
    else if code == 241 then 164 else if code == 209 then 165 else if code == 170 then 166
    else if code == 186 then 167 else if code == 191 then 168 else if code == 8976 then 169
    else if code == 172 then 170 else if code == 189 then 171 else if code == 188 then 172
    else if code == 161 then 173 else if code == 171 then 174 else if code == 187 then 175
    else if code == 9617 then 176 else if code == 9618 then 177 else if code == 9619 then 178
    else if code == 9474 then 179 else if code == 9508 then 180 else if code == 9569 then 181
    else if code == 9570 then 182 else if code == 9558 then 183 else if code == 9557 then 184
    else if code == 9571 then 185 else if code == 9553 then 186 else if code == 9559 then 187
    else if code == 9565 then 188 else if code == 9564 then 189 else if code == 9563 then 190
    else if code == 9488 then 191 else if code == 9492 then 192 else if code == 9524 then 193
    else if code == 9516 then 194 else if code == 9500 then 195 else if code == 9472 then 196
    else if code == 9532 then 197 else if code == 9566 then 198 else if code == 9567 then 199
    else if code == 9562 then 200 else if code == 9556 then 201 else if code == 9577 then 202
    else if code == 9574 then 203 else if code == 9568 then 204 else if code == 9552 then 205
    else if code == 9580 then 206 else if code == 9575 then 207 else if code == 9576 then 208
    else if code == 9572 then 209 else if code == 9573 then 210 else if code == 9561 then 211
    else if code == 9560 then 212 else if code == 9554 then 213 else if code == 9555 then 214
    else if code == 9579 then 215 else if code == 9578 then 216 else if code == 9496 then 217
    else if code == 9484 then 218 else if code == 9608 then 219 else if code == 9604 then 220
    else if code == 9612 then 221 else if code == 9616 then 222 else if code == 9600 then 223
    else if code == 945 then 224 else if code == 223 then 225 else if code == 915 then 226
    else if code == 960 then 227 else if code == 931 then 228 else if code == 963 then 229
    else if code == 181 then 230 else if code == 964 then 231 else if code == 934 then 232
    else if code == 920 then 233 else if code == 937 then 234 else if code == 948 then 235
    else if code == 8734 then 236 else if code == 966 then 237 else if code == 949 then 238
    else if code == 8745 then 239 else if code == 8801 then 240 else if code == 177 then 241
    else if code == 8805 then 242 else if code == 8804 then 243 else if code == 8992 then 244
    else if code == 8993 then 245 else if code == 247 then 246 else if code == 8776 then 247
    else if code == 176 then 248 else if code == 8729 then 249 else if code == 183 then 250
    else if code == 8730 then 251 else if code == 8319 then 252 else if code == 178 then 253
    else if code == 9632 then 254 else if code == 160 then 255
    else -1
  }

  lemma From128()
    ensures forall i :: 0 <= i < 8 ==> ByteOf(ROW_128[i] as int) == 128 + i
  {
  }

  lemma From136()
    ensures forall i :: 8 <= i < 16 ==> ByteOf(ROW_128[i] as int) == 128 + i
  {
  }

  lemma From144()
    ensures forall i :: 16 <= i < 24 ==> ByteOf(ROW_128[i] as int) == 128 + i
  {
  }

  lemma From152()
    ensures forall i :: 24 <= i < 32 ==> ByteOf(ROW_128[i] as int) == 128 + i
  {
  }

  lemma From160()
    ensures forall i :: 0 <= i < 8 ==> ByteOf(ROW_160[i] as int) == 160 + i
  {
  }

  lemma From168()
    ensures forall i :: 8 <= i < 16 ==> ByteOf(ROW_160[i] as int) == 160 + i
  {
  }

  lemma From176()
    ensures forall i :: 16 <= i < 24 ==> ByteOf(ROW_160[i] as int) == 160 + i
  {
  }

  lemma From184()
    ensures forall i :: 24 <= i < 32 ==> ByteOf(ROW_160[i] as int) == 160 + i
  {
  }

  lemma From192()
    ensures forall i :: 0 <= i < 8 ==> ByteOf(ROW_192[i] as int) == 192 + i
  {
  }

  lemma From200()
    ensures forall i :: 8 <= i < 16 ==> ByteOf(ROW_192[i] as int) == 192 + i
  {
  }

  lemma From208()
    ensures forall i :: 16 <= i < 24 ==> ByteOf(ROW_192[i] as int) == 192 + i
  {
  }

  lemma From216()
    ensures forall i :: 24 <= i < 32 ==> ByteOf(ROW_192[i] as int) == 192 + i
  {
  }

  lemma From224()
    ensures forall i :: 0 <= i < 8 ==> ByteOf(ROW_224[i] as int) == 224 + i
  {
  }

  lemma From232()
    ensures forall i :: 8 <= i < 16 ==> ByteOf(ROW_224[i] as int) == 224 + i
  {
  }

  lemma From240()
    ensures forall i :: 16 <= i < 24 ==> ByteOf(ROW_224[i] as int) == 224 + i
  {
  }

  lemma From248()
    ensures forall i :: 24 <= i < 32 ==> ByteOf(ROW_224[i] as int) == 224 + i
  {
  }

  lemma {:induction false} CharacterOfByte(b: Byte)
    requires b >= 128
    ensures ByteOf(High()[b - 128] as int) == b
  {
    From128(); From136(); From144(); From152();
    From160(); From168(); From176(); From184();
    From192(); From200(); From208(); From216();
    From224(); From232(); From240(); From248();
    hide ByteOf;
    RowOfByte(b);
  }

  lemma RowOfByte(b: Byte)
    requires b >= 128
    ensures High()[b - 128] ==
            if b < 160 then ROW_128[b - 128]
            else if b < 192 then ROW_160[b - 160]
            else if b < 224 then ROW_192[b - 192] else ROW_224[b - 224]
  {
  }

  lemma AsciiHasNoByte(code: int)
    requires code < 128
    ensures ByteOf(code) == -1
  {
  }

  lemma {:induction false} EncodeCharUndoes(b: Byte)
    ensures EncodeChar(DecodeByte(b)) == Some(b)
  {
    hide ByteOf, High;
    if b >= 128 {
      CharacterOfByte(b);
      var c := High()[b - 128];
      if c as int < 128 { AsciiHasNoByte(c as int); }
      var i := IndexOf(High(), c);
      if i.Some? { CharacterOfByte(i.value + 128); }
    }
  }

  /** Every byte sequence is decoded to a text that encodes to the same bytes. */
  lemma {:induction false} EncodeUndoesDecode(bytes: seq<Byte>)
    ensures Encode(Decode(bytes)) == Some(bytes)
  {
    hide DecodeByte, EncodeChar;
    if |bytes| > 0 {
      var n := |bytes| - 1;
      EncodeUndoesDecode(bytes[..n]);
      EncodeCharUndoes(bytes[n]);
      assert Decode(bytes)[..n] == Decode(bytes[..n]);
      assert bytes == bytes[..n] + [bytes[n]];
    }
  }
}
