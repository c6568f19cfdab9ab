/** The example that comes with FIPS 180-4: the message "abc", worked out round by round. */
module Sha256Example {
  import opened Sha256
  import A = AccountDigest
  import C = Sha256Constants

  const ABC: seq<Byte> := [0x61, 0x62, 0x63]

  /** The one block of the padded message. */
  const BLOCK: seq<Byte> := ABC + [0x80] + Zeros(52) + [0, 0, 0, 0, 0, 0, 0, 24]

  lemma PaddedAbc()
    ensures |BLOCK| == 64 && Padded(ABC) == BLOCK
  {
    assert ZeroCount(3) == 52;
    LengthOfAbc();
  }

  lemma LengthOfAbc()
    ensures BigEndian(24, 8) == [0, 0, 0, 0, 0, 0, 0, 24]
  {
    assert BigEndian(0, 3) == [0, 0, 0];
    assert BigEndian(0, 5) == BigEndian(0, 3) + [0, 0];
    assert BigEndian(0, 7) == BigEndian(0, 5) + [0, 0];
  }

  // ---------- the message schedule ----------

  const W0: seq<Word> := [
    0x61626380, 0x00000000, 0x00000000, 0x00000000, 0x00000000, 0x00000000, 0x00000000, 0x00000000]
  const W1: seq<Word> := [
    0x00000000, 0x00000000, 0x00000000, 0x00000000, 0x00000000, 0x00000000, 0x00000000, 0x00000018]
  const W2: seq<Word> := [
    0x61626380, 0x000f0000, 0x7da86405, 0x600003c6, 0x3e9d7b78, 0x0183fc00, 0x12dcbfdb, 0xe2e2c38e]
  const W3: seq<Word> := [
    0xc8215c1a, 0xb73679a2, 0xe5bc3909, 0x32663c5b, 0x9d209d67, 0xec8726cb, 0x702138a4, 0xd3b7973b]
  const W4: seq<Word> := [
    0x93f5997f, 0x3b68ba73, 0xaff4ffc1, 0xf10a5c62, 0x0a8b3996, 0x72af830a, 0x9409e33e, 0x24641522]
  const W5: seq<Word> := [
    0x9f47bf94, 0xf0a64f5a, 0x3e246a79, 0x27333ba3, 0x0c4763f2, 0x840abf27, 0x7a290d5d, 0x065c43da]
  const W6: seq<Word> := [
    0xfb3e89cb, 0xcc7617db, 0xb9e66c34, 0xa9993667, 0x84badedd, 0xc21462bc, 0x1487472c, 0xb20f7a99]
  const W7: seq<Word> := [
    0xef57b9cd, 0xebe6b238, 0x9fe3095e, 0x78bc8d4b, 0xa43fcf15, 0x668b2ff8, 0xeeaba2cc, 0x12b1edeb]

  function WordAt(t: nat): Word
    requires t < 64
  {
    if t < 8 then W0[t] else if t < 16 then W1[t - 8] else if t < 24 then W2[t - 16] else if t < 32 then W3[t - 24] 
    else if t < 40 then W4[t - 32] else if t < 48 then W5[t - 40] else if t < 56 then W6[t - 48] else W7[t - 56]
  }

  lemma Words2()
    ensures NextWord(W1[6], W1[1], W0[1], W0[0]) == W2[0]
    ensures NextWord(W1[7], W1[2], W0[2], W0[1]) == W2[1]
    ensures NextWord(W2[0], W1[3], W0[3], W0[2]) == W2[2]
    ensures NextWord(W2[1], W1[4], W0[4], W0[3]) == W2[3]
    ensures NextWord(W2[2], W1[5], W0[5], W0[4]) == W2[4]
    ensures NextWord(W2[3], W1[6], W0[6], W0[5]) == W2[5]
    ensures NextWord(W2[4], W1[7], W0[7], W0[6]) == W2[6]
    ensures NextWord(W2[5], W2[0], W1[0], W0[7]) == W2[7]
  {
  }

  lemma Words3()
    ensures NextWord(W2[6], W2[1], W1[1], W1[0]) == W3[0]
    ensures NextWord(W2[7], W2[2], W1[2], W1[1]) == W3[1]
    ensures NextWord(W3[0], W2[3], W1[3], W1[2]) == W3[2]
    ensures NextWord(W3[1], W2[4], W1[4], W1[3]) == W3[3]
    ensures NextWord(W3[2], W2[5], W1[5], W1[4]) == W3[4]
    ensures NextWord(W3[3], W2[6], W1[6], W1[5]) == W3[5]
    ensures NextWord(W3[4], W2[7], W1[7], W1[6]) == W3[6]
    ensures NextWord(W3[5], W3[0], W2[0], W1[7]) == W3[7]
  {
  }

  lemma Words4()
    ensures NextWord(W3[6], W3[1], W2[1], W2[0]) == W4[0]
    ensures NextWord(W3[7], W3[2], W2[2], W2[1]) == W4[1]
    ensures NextWord(W4[0], W3[3], W2[3], W2[2]) == W4[2]
    ensures NextWord(W4[1], W3[4], W2[4], W2[3]) == W4[3]
    ensures NextWord(W4[2], W3[5], W2[5], W2[4]) == W4[4]
    ensures NextWord(W4[3], W3[6], W2[6], W2[5]) == W4[5]
    ensures NextWord(W4[4], W3[7], W2[7], W2[6]) == W4[6]
    ensures NextWord(W4[5], W4[0], W3[0], W2[7]) == W4[7]
  {
  }

  lemma Words5()
    ensures NextWord(W4[6], W4[1], W3[1], W3[0]) == W5[0]
    ensures NextWord(W4[7], W4[2], W3[2], W3[1]) == W5[1]
    ensures NextWord(W5[0], W4[3], W3[3], W3[2]) == W5[2]
    ensures NextWord(W5[1], W4[4], W3[4], W3[3]) == W5[3]
    ensures NextWord(W5[2], W4[5], W3[5], W3[4]) == W5[4]
    ensures NextWord(W5[3], W4[6], W3[6], W3[5]) == W5[5]
    ensures NextWord(W5[4], W4[7], W3[7], W3[6]) == W5[6]
    ensures NextWord(W5[5], W5[0], W4[0], W3[7]) == W5[7]
  {
  }

  lemma Words6()
    ensures NextWord(W5[6], W5[1], W4[1], W4[0]) == W6[0]
    ensures NextWord(W5[7], W5[2], W4[2], W4[1]) == W6[1]
    ensures NextWord(W6[0], W5[3], W4[3], W4[2]) == W6[2]
    ensures NextWord(W6[1], W5[4], W4[4], W4[3]) == W6[3]
    ensures NextWord(W6[2], W5[5], W4[5], W4[4]) == W6[4]
    ensures NextWord(W6[3], W5[6], W4[6], W4[5]) == W6[5]
    ensures NextWord(W6[4], W5[7], W4[7], W4[6]) == W6[6]
    ensures NextWord(W6[5], W6[0], W5[0], W4[7]) == W6[7]
  {
  }

  lemma Words7()
    ensures NextWord(W6[6], W6[1], W5[1], W5[0]) == W7[0]
    ensures NextWord(W6[7], W6[2], W5[2], W5[1]) == W7[1]
    ensures NextWord(W7[0], W6[3], W5[3], W5[2]) == W7[2]
    ensures NextWord(W7[1], W6[4], W5[4], W5[3]) == W7[3]
    ensures NextWord(W7[2], W6[5], W5[5], W5[4]) == W7[4]
    ensures NextWord(W7[3], W6[6], W5[6], W5[5]) == W7[5]
    ensures NextWord(W7[4], W6[7], W5[7], W5[6]) == W7[6]
    ensures NextWord(W7[5], W7[0], W6[0], W5[7]) == W7[7]
  {
  }

  /** Every word of the schedule from the sixteenth on follows from four earlier ones. */
  lemma WordFollows(t: nat)
    requires 16 <= t < 64
    ensures NextWord(WordAt(t - 2), WordAt(t - 7), WordAt(t - 15), WordAt(t - 16)) == WordAt(t)
  {
    hide NextWord;
    if t < 24 {
      Words2();
      C.Eight(t - 16);
    } else if t < 32 {
      Words3();
      C.Eight(t - 24);
    } else if t < 40 {
      Words4();
      C.Eight(t - 32);
    } else if t < 48 {
      Words5();
      C.Eight(t - 40);
    } else if t < 56 {
      Words6();
      C.Eight(t - 48);
    } else {
      Words7();
      C.Eight(t - 56);
    }
  }

  lemma FirstWord()
    ensures BytesWord(0x61, 0x62, 0x63, 0x80) == 0x6162_6380
  {
    hide BytesWord;
    A.BytesWordIs(0x61, 0x62, 0x63, 0x80);
    assert 0x61 as Word == 0x61 && 0x62 as Word == 0x62 && 0x63 as Word == 0x63 && 0x80 as Word == 0x80;
  }

  lemma OtherWords()
    ensures BytesWord(0, 0, 0, 0) == 0 && BytesWord(0, 0, 0, 24) == 24
  {
  }

  lemma BlockBytes(t: nat)
    requires t < 16
    ensures |BLOCK| == 64
    ensures t == 0 ==> BLOCK[0] == 0x61 && BLOCK[1] == 0x62 && BLOCK[2] == 0x63 && BLOCK[3] == 0x80
    ensures t > 0 ==> BLOCK[4 * t] == 0 && BLOCK[4 * t + 1] == 0 && BLOCK[4 * t + 2] == 0
    ensures t > 0 ==> BLOCK[4 * t + 3] == if t == 15 then 24 else 0
  {
  }

  lemma {:induction false} ScheduleOfAbc(t: nat)
    requires t < 64
    ensures |BLOCK| == 64 && Schedule(BLOCK, t) == WordAt(t)
  {
    hide BytesWord, NextWord, BLOCK;
    BlockBytes(0);
    if t < 16 {
      BlockWord(t);
    } else {
      ScheduleOfAbc(t - 2);
      ScheduleOfAbc(t - 7);
      ScheduleOfAbc(t - 15);
      ScheduleOfAbc(t - 16);
      WordFollows(t);
    }
  }

  lemma BlockWord(t: nat)
    requires t < 16
    ensures |BLOCK| == 64 && Schedule(BLOCK, t) == WordAt(t)
  {
    hide BytesWord, NextWord, BLOCK;
    BlockBytes(t);
    FirstWord();
    OtherWords();
    C.Eight(if t < 8 then t else t - 8);
  }

  // ---------- the rounds ----------

  const S0: seq<Vars> := [
    Vars(0x6a09e667, 0xbb67ae85, 0x3c6ef372, 0xa54ff53a, 0x510e527f, 0x9b05688c, 0x1f83d9ab, 0x5be0cd19),
    Vars(0x5d6aebcd, 0x6a09e667, 0xbb67ae85, 0x3c6ef372, 0xfa2a4622, 0x510e527f, 0x9b05688c, 0x1f83d9ab),
    Vars(0x5a6ad9ad, 0x5d6aebcd, 0x6a09e667, 0xbb67ae85, 0x78ce7989, 0xfa2a4622, 0x510e527f, 0x9b05688c),
    Vars(0xc8c347a7, 0x5a6ad9ad, 0x5d6aebcd, 0x6a09e667, 0xf92939eb, 0x78ce7989, 0xfa2a4622, 0x510e527f),
    Vars(0xd550f666, 0xc8c347a7, 0x5a6ad9ad, 0x5d6aebcd, 0x24e00850, 0xf92939eb, 0x78ce7989, 0xfa2a4622),
    Vars(0x04409a6a, 0xd550f666, 0xc8c347a7, 0x5a6ad9ad, 0x43ada245, 0x24e00850, 0xf92939eb, 0x78ce7989),
    Vars(0x2b4209f5, 0x04409a6a, 0xd550f666, 0xc8c347a7, 0x714260ad, 0x43ada245, 0x24e00850, 0xf92939eb),
    Vars(0xe5030380, 0x2b4209f5, 0x04409a6a, 0xd550f666, 0x9b27a401, 0x714260ad, 0x43ada245, 0x24e00850)]
  const S1: seq<Vars> := [
    Vars(0x85a07b5f, 0xe5030380, 0x2b4209f5, 0x04409a6a, 0x0c657a79, 0x9b27a401, 0x714260ad, 0x43ada245),
    Vars(0x8e04ecb9, 0x85a07b5f, 0xe5030380, 0x2b4209f5, 0x32ca2d8c, 0x0c657a79, 0x9b27a401, 0x714260ad),
    Vars(0x8c87346b, 0x8e04ecb9, 0x85a07b5f, 0xe5030380, 0x1cc92596, 0x32ca2d8c, 0x0c657a79, 0x9b27a401),
    Vars(0x4798a3f4, 0x8c87346b, 0x8e04ecb9, 0x85a07b5f, 0x436b23e8, 0x1cc92596, 0x32ca2d8c, 0x0c657a79),
    Vars(0xf71fc5a9, 0x4798a3f4, 0x8c87346b, 0x8e04ecb9, 0x816fd6e9, 0x436b23e8, 0x1cc92596, 0x32ca2d8c),
    Vars(0x87912990, 0xf71fc5a9, 0x4798a3f4, 0x8c87346b, 0x1e578218, 0x816fd6e9, 0x436b23e8, 0x1cc92596),
    Vars(0xd932eb16, 0x87912990, 0xf71fc5a9, 0x4798a3f4, 0x745a48de, 0x1e578218, 0x816fd6e9, 0x436b23e8),
    Vars(0xc0645fde, 0xd932eb16, 0x87912990, 0xf71fc5a9, 0x0b92f20c, 0x745a48de, 0x1e578218, 0x816fd6e9)]
  const S2: seq<Vars> := [
    Vars(0xb0fa238e, 0xc0645fde, 0xd932eb16, 0x87912990, 0x07590dcd, 0x0b92f20c, 0x745a48de, 0x1e578218),
    Vars(0x21da9a9b, 0xb0fa238e, 0xc0645fde, 0xd932eb16, 0x8034229c, 0x07590dcd, 0x0b92f20c, 0x745a48de),
    Vars(0xc2fbd9d1, 0x21da9a9b, 0xb0fa238e, 0xc0645fde, 0x846ee454, 0x8034229c, 0x07590dcd, 0x0b92f20c),
    Vars(0xfe777bbf, 0xc2fbd9d1, 0x21da9a9b, 0xb0fa238e, 0xcc899961, 0x846ee454, 0x8034229c, 0x07590dcd),
    Vars(0xe1f20c33, 0xfe777bbf, 0xc2fbd9d1, 0x21da9a9b, 0xb0638179, 0xcc899961, 0x846ee454, 0x8034229c),
    Vars(0x9dc68b63, 0xe1f20c33, 0xfe777bbf, 0xc2fbd9d1, 0x8ada8930, 0xb0638179, 0xcc899961, 0x846ee454),
    Vars(0xc2606d6d, 0x9dc68b63, 0xe1f20c33, 0xfe777bbf, 0xe1257970, 0x8ada8930, 0xb0638179, 0xcc899961),
    Vars(0xa7a3623f, 0xc2606d6d, 0x9dc68b63, 0xe1f20c33, 0x49f5114a, 0xe1257970, 0x8ada8930, 0xb0638179)]
  const S3: seq<Vars> := [
    Vars(0xc5d53d8d, 0xa7a3623f, 0xc2606d6d, 0x9dc68b63, 0xaa47c347, 0x49f5114a, 0xe1257970, 0x8ada8930),
    Vars(0x1c2c2838, 0xc5d53d8d, 0xa7a3623f, 0xc2606d6d, 0x2823ef91, 0xaa47c347, 0x49f5114a, 0xe1257970),
    Vars(0xcde8037d, 0x1c2c2838, 0xc5d53d8d, 0xa7a3623f, 0x14383d8e, 0x2823ef91, 0xaa47c347, 0x49f5114a),
    Vars(0xb62ec4bc, 0xcde8037d, 0x1c2c2838, 0xc5d53d8d, 0xc74c6516, 0x14383d8e, 0x2823ef91, 0xaa47c347),
    Vars(0x77d37528, 0xb62ec4bc, 0xcde8037d, 0x1c2c2838, 0xedffbff8, 0xc74c6516, 0x14383d8e, 0x2823ef91),
    Vars(0x363482c9, 0x77d37528, 0xb62ec4bc, 0xcde8037d, 0x6112a3b7, 0xedffbff8, 0xc74c6516, 0x14383d8e),
    Vars(0xa0060b30, 0x363482c9, 0x77d37528, 0xb62ec4bc, 0xade79437, 0x6112a3b7, 0xedffbff8, 0xc74c6516),
    Vars(0xea992a22, 0xa0060b30, 0x363482c9, 0x77d37528, 0x0109ab3a, 0xade79437, 0x6112a3b7, 0xedffbff8)]
  const S4: seq<Vars> := [
    Vars(0x73b33bf5, 0xea992a22, 0xa0060b30, 0x363482c9, 0xba591112, 0x0109ab3a, 0xade79437, 0x6112a3b7),
    Vars(0x98e12507, 0x73b33bf5, 0xea992a22, 0xa0060b30, 0x9cd9f5f6, 0xba591112, 0x0109ab3a, 0xade79437),
    Vars(0xfe604df5, 0x98e12507, 0x73b33bf5, 0xea992a22, 0x59249dd3, 0x9cd9f5f6, 0xba591112, 0x0109ab3a),
    Vars(0xa9a7738c, 0xfe604df5, 0x98e12507, 0x73b33bf5, 0x085f3833, 0x59249dd3, 0x9cd9f5f6, 0xba591112),
    Vars(0x65a0cfe4, 0xa9a7738c, 0xfe604df5, 0x98e12507, 0xf4b002d6, 0x085f3833, 0x59249dd3, 0x9cd9f5f6),
    Vars(0x41a65cb1, 0x65a0cfe4, 0xa9a7738c, 0xfe604df5, 0x0772a26b, 0xf4b002d6, 0x085f3833, 0x59249dd3),
    Vars(0x34df1604, 0x41a65cb1, 0x65a0cfe4, 0xa9a7738c, 0xa507a53d, 0x0772a26b, 0xf4b002d6, 0x085f3833),
    Vars(0x6dc57a8a, 0x34df1604, 0x41a65cb1, 0x65a0cfe4, 0xf0781bc8, 0xa507a53d, 0x0772a26b, 0xf4b002d6)]
  const S5: seq<Vars> := [
    Vars(0x79ea687a, 0x6dc57a8a, 0x34df1604, 0x41a65cb1, 0x1efbc0a0, 0xf0781bc8, 0xa507a53d, 0x0772a26b),
    Vars(0xd6670766, 0x79ea687a, 0x6dc57a8a, 0x34df1604, 0x26352d63, 0x1efbc0a0, 0xf0781bc8, 0xa507a53d),
    Vars(0xdf46652f, 0xd6670766, 0x79ea687a, 0x6dc57a8a, 0x838b2711, 0x26352d63, 0x1efbc0a0, 0xf0781bc8),
    Vars(0x17aa0dfe, 0xdf46652f, 0xd6670766, 0x79ea687a, 0xdecd4715, 0x838b2711, 0x26352d63, 0x1efbc0a0),
    Vars(0x9d4baf93, 0x17aa0dfe, 0xdf46652f, 0xd6670766, 0xfda24c2e, 0xdecd4715, 0x838b2711, 0x26352d63),
    Vars(0x26628815, 0x9d4baf93, 0x17aa0dfe, 0xdf46652f, 0xa80f11f0, 0xfda24c2e, 0xdecd4715, 0x838b2711),
    Vars(0x72ab4b91, 0x26628815, 0x9d4baf93, 0x17aa0dfe, 0xb7755da1, 0xa80f11f0, 0xfda24c2e, 0xdecd4715),
    Vars(0xa14c14b0, 0x72ab4b91, 0x26628815, 0x9d4baf93, 0xd57b94a9, 0xb7755da1, 0xa80f11f0, 0xfda24c2e)]
  const S6: seq<Vars> := [
    Vars(0x4172328d, 0xa14c14b0, 0x72ab4b91, 0x26628815, 0xfecf0bc6, 0xd57b94a9, 0xb7755da1, 0xa80f11f0),
    Vars(0x05757ceb, 0x4172328d, 0xa14c14b0, 0x72ab4b91, 0xbd714038, 0xfecf0bc6, 0xd57b94a9, 0xb7755da1),
    Vars(0xf11bfaa8, 0x05757ceb, 0x4172328d, 0xa14c14b0, 0x6e5c390c, 0xbd714038, 0xfecf0bc6, 0xd57b94a9),
    Vars(0x7a0508a1, 0xf11bfaa8, 0x05757ceb, 0x4172328d, 0x52f1ccf7, 0x6e5c390c, 0xbd714038, 0xfecf0bc6),
    Vars(0x886e7a22, 0x7a0508a1, 0xf11bfaa8, 0x05757ceb, 0x49231c1e, 0x52f1ccf7, 0x6e5c390c, 0xbd714038),
    Vars(0x101fd28f, 0x886e7a22, 0x7a0508a1, 0xf11bfaa8, 0x529e7d00, 0x49231c1e, 0x52f1ccf7, 0x6e5c390c),
    Vars(0xf5702fdb, 0x101fd28f, 0x886e7a22, 0x7a0508a1, 0x9f4787c3, 0x529e7d00, 0x49231c1e, 0x52f1ccf7),
    Vars(0x3ec45cdb, 0xf5702fdb, 0x101fd28f, 0x886e7a22, 0xe50e1b4f, 0x9f4787c3, 0x529e7d00, 0x49231c1e)]
  const S7: seq<Vars> := [
    Vars(0x38cc9913, 0x3ec45cdb, 0xf5702fdb, 0x101fd28f, 0x54cb266b, 0xe50e1b4f, 0x9f4787c3, 0x529e7d00),
    Vars(0xfcd1887b, 0x38cc9913, 0x3ec45cdb, 0xf5702fdb, 0x9b5e906c, 0x54cb266b, 0xe50e1b4f, 0x9f4787c3),
    Vars(0xc062d46f, 0xfcd1887b, 0x38cc9913, 0x3ec45cdb, 0x7e44008e, 0x9b5e906c, 0x54cb266b, 0xe50e1b4f),
    Vars(0xffb70472, 0xc062d46f, 0xfcd1887b, 0x38cc9913, 0x6d83bfc6, 0x7e44008e, 0x9b5e906c, 0x54cb266b),
    Vars(0xb6ae8fff, 0xffb70472, 0xc062d46f, 0xfcd1887b, 0xb21bad3d, 0x6d83bfc6, 0x7e44008e, 0x9b5e906c),
    Vars(0xb85e2ce9, 0xb6ae8fff, 0xffb70472, 0xc062d46f, 0x961f4894, 0xb21bad3d, 0x6d83bfc6, 0x7e44008e),
    Vars(0x04d24d6c, 0xb85e2ce9, 0xb6ae8fff, 0xffb70472, 0x948d25b6, 0x961f4894, 0xb21bad3d, 0x6d83bfc6),
    Vars(0xd39a2165, 0x04d24d6c, 0xb85e2ce9, 0xb6ae8fff, 0xfb121210, 0x948d25b6, 0x961f4894, 0xb21bad3d)]
  const S8: seq<Vars> := [Vars(0x506e3058, 0xd39a2165, 0x04d24d6c, 0xb85e2ce9, 0x5ef50f24, 0xfb121210, 0x948d25b6, 0x961f4894)]

  function StateAt(t: nat): Vars
    requires t <= 64
  {
    if t == 64 then S8[0] else if t < 8 then S0[t] else if t < 16 then S1[t - 8] else if t < 24 then S2[t - 16] else if t < 32 then S3[t - 24] 
    else if t < 40 then S4[t - 32] else if t < 48 then S5[t - 40] else if t < 56 then S6[t - 48] else S7[t - 56]
  }

  lemma Rounds0()
    ensures Round(S0[0], K0[0], W0[0]) == S0[1]
    ensures Round(S0[1], K0[1], W0[1]) == S0[2]
    ensures Round(S0[2], K0[2], W0[2]) == S0[3]
    ensures Round(S0[3], K0[3], W0[3]) == S0[4]
    ensures Round(S0[4], K0[4], W0[4]) == S0[5]
    ensures Round(S0[5], K0[5], W0[5]) == S0[6]
    ensures Round(S0[6], K0[6], W0[6]) == S0[7]
    ensures Round(S0[7], K0[7], W0[7]) == S1[0]
  {
  }

  lemma Rounds1()
    ensures Round(S1[0], K1[0], W1[0]) == S1[1]
    ensures Round(S1[1], K1[1], W1[1]) == S1[2]
    ensures Round(S1[2], K1[2], W1[2]) == S1[3]
    ensures Round(S1[3], K1[3], W1[3]) == S1[4]
    ensures Round(S1[4], K1[4], W1[4]) == S1[5]
    ensures Round(S1[5], K1[5], W1[5]) == S1[6]
    ensures Round(S1[6], K1[6], W1[6]) == S1[7]
    ensures Round(S1[7], K1[7], W1[7]) == S2[0]
  {
  }

  lemma Rounds2()
    ensures Round(S2[0], K2[0], W2[0]) == S2[1]
    ensures Round(S2[1], K2[1], W2[1]) == S2[2]
    ensures Round(S2[2], K2[2], W2[2]) == S2[3]
    ensures Round(S2[3], K2[3], W2[3]) == S2[4]
    ensures Round(S2[4], K2[4], W2[4]) == S2[5]
    ensures Round(S2[5], K2[5], W2[5]) == S2[6]
    ensures Round(S2[6], K2[6], W2[6]) == S2[7]
    ensures Round(S2[7], K2[7], W2[7]) == S3[0]
  {
  }

  lemma Rounds3()
    ensures Round(S3[0], K3[0], W3[0]) == S3[1]
    ensures Round(S3[1], K3[1], W3[1]) == S3[2]
    ensures Round(S3[2], K3[2], W3[2]) == S3[3]
    ensures Round(S3[3], K3[3], W3[3]) == S3[4]
    ensures Round(S3[4], K3[4], W3[4]) == S3[5]
    ensures Round(S3[5], K3[5], W3[5]) == S3[6]
    ensures Round(S3[6], K3[6], W3[6]) == S3[7]
    ensures Round(S3[7], K3[7], W3[7]) == S4[0]
  {
  }

  lemma Rounds4()
    ensures Round(S4[0], K4[0], W4[0]) == S4[1]
    ensures Round(S4[1], K4[1], W4[1]) == S4[2]
    ensures Round(S4[2], K4[2], W4[2]) == S4[3]
    ensures Round(S4[3], K4[3], W4[3]) == S4[4]
    ensures Round(S4[4], K4[4], W4[4]) == S4[5]
    ensures Round(S4[5], K4[5], W4[5]) == S4[6]
    ensures Round(S4[6], K4[6], W4[6]) == S4[7]
    ensures Round(S4[7], K4[7], W4[7]) == S5[0]
  {
  }

  lemma Rounds5()
    ensures Round(S5[0], K5[0], W5[0]) == S5[1]
    ensures Round(S5[1], K5[1], W5[1]) == S5[2]
    ensures Round(S5[2], K5[2], W5[2]) == S5[3]
    ensures Round(S5[3], K5[3], W5[3]) == S5[4]
    ensures Round(S5[4], K5[4], W5[4]) == S5[5]
    ensures Round(S5[5], K5[5], W5[5]) == S5[6]
    ensures Round(S5[6], K5[6], W5[6]) == S5[7]
    ensures Round(S5[7], K5[7], W5[7]) == S6[0]
  {
  }

  lemma Rounds6()
    ensures Round(S6[0], K6[0], W6[0]) == S6[1]
    ensures Round(S6[1], K6[1], W6[1]) == S6[2]
    ensures Round(S6[2], K6[2], W6[2]) == S6[3]
    ensures Round(S6[3], K6[3], W6[3]) == S6[4]
    ensures Round(S6[4], K6[4], W6[4]) == S6[5]
    ensures Round(S6[5], K6[5], W6[5]) == S6[6]
    ensures Round(S6[6], K6[6], W6[6]) == S6[7]
    ensures Round(S6[7], K6[7], W6[7]) == S7[0]
  {
  }

  lemma Rounds7()
    ensures Round(S7[0], K7[0], W7[0]) == S7[1]
    ensures Round(S7[1], K7[1], W7[1]) == S7[2]
    ensures Round(S7[2], K7[2], W7[2]) == S7[3]
    ensures Round(S7[3], K7[3], W7[3]) == S7[4]
    ensures Round(S7[4], K7[4], W7[4]) == S7[5]
    ensures Round(S7[5], K7[5], W7[5]) == S7[6]
    ensures Round(S7[6], K7[6], W7[6]) == S7[7]
    ensures Round(S7[7], K7[7], W7[7]) == S8[0]
  {
  }

  lemma Row0(i: nat)
    requires i < 8
    ensures Round(S0[i], K0[i], W0[i]) == if i == 7 then S1[0] else S0[i + 1]
  {
    hide Round;
    Rounds0();
    C.Eight(i);
  }

  lemma Row1(i: nat)
    requires i < 8
    ensures Round(S1[i], K1[i], W1[i]) == if i == 7 then S2[0] else S1[i + 1]
  {
    hide Round;
    Rounds1();
    C.Eight(i);
  }

  lemma Row2(i: nat)
    requires i < 8
    ensures Round(S2[i], K2[i], W2[i]) == if i == 7 then S3[0] else S2[i + 1]
  {
    hide Round;
    Rounds2();
    C.Eight(i);
  }

  lemma Row3(i: nat)
    requires i < 8
    ensures Round(S3[i], K3[i], W3[i]) == if i == 7 then S4[0] else S3[i + 1]
  {
    hide Round;
    Rounds3();
    C.Eight(i);
  }

  lemma Row4(i: nat)
    requires i < 8
    ensures Round(S4[i], K4[i], W4[i]) == if i == 7 then S5[0] else S4[i + 1]
  {
    hide Round;
    Rounds4();
    C.Eight(i);
  }

  lemma Row5(i: nat)
    requires i < 8
    ensures Round(S5[i], K5[i], W5[i]) == if i == 7 then S6[0] else S5[i + 1]
  {
    hide Round;
    Rounds5();
    C.Eight(i);
  }

  lemma Row6(i: nat)
    requires i < 8
    ensures Round(S6[i], K6[i], W6[i]) == if i == 7 then S7[0] else S6[i + 1]
  {
    hide Round;
    Rounds6();
    C.Eight(i);
  }

  lemma Row7(i: nat)
    requires i < 8
    ensures Round(S7[i], K7[i], W7[i]) == if i == 7 then S8[0] else S7[i + 1]
  {
    hide Round;
    Rounds7();
    C.Eight(i);
  }

  function ConstantAt(t: nat): Word
    requires t < 64
  {
    if t < 8 then K0[t] else if t < 16 then K1[t - 8] else if t < 24 then K2[t - 16] else if t < 32 then K3[t - 24] 
    else if t < 40 then K4[t - 32] else if t < 48 then K5[t - 40] else if t < 56 then K6[t - 48] else K7[t - 56]
  }

  lemma RoundFollows(t: nat)
    requires t < 64
    ensures Round(StateAt(t), ConstantAt(t), WordAt(t)) == StateAt(t + 1)
  {
    hide Round;
    if t < 8 {
      Row0(t);
    } else if t < 16 {
      Row1(t - 8);
    } else if t < 24 {
      Row2(t - 16);
    } else if t < 32 {
      Row3(t - 24);
    } else if t < 40 {
      Row4(t - 32);
    } else if t < 48 {
      Row5(t - 40);
    } else if t < 56 {
      Row6(t - 48);
    } else {
      Row7(t - 56);
    }
  }

  lemma {:induction false} RoundsOfAbc(t: nat)
    requires t <= 64
    ensures |BLOCK| == 64 && Rounds(INITIAL, BLOCK, t) == StateAt(t)
  {
    hide Round, Schedule, BLOCK, WordAt;
    BlockBytes(0);
    if t > 0 {
      RoundsOfAbc(t - 1);
      ScheduleOfAbc(t - 1);
      RoundFollows(t - 1);
      C.Rows(K0, K1, K2, K3, K4, K5, K6, K7, t - 1);
      assert K[t - 1] == ConstantAt(t - 1);
    }
  }

  // ---------- the digest ----------

  /** The hash value that FIPS 180-4 gives for the message. */
  lemma DigestOfAbc()
    ensures Digest(ABC) == Vars(0xba7816bf, 0x8f01cfea, 0x414140de, 0x5dae2223, 0xb00361a3, 0x96177a9c, 0xb410ff61, 0xf20015ad)
  {
    hide Rounds, Padded, BLOCK;
    PaddedAbc();
    RoundsOfAbc(64);
    assert BLOCK[0..64] == BLOCK;
    assert HashBlocks(BLOCK, 0) == INITIAL;
    assert AddVars(INITIAL, S8[0]) == Vars(0xba7816bf, 0x8f01cfea, 0x414140de, 0x5dae2223, 0xb00361a3, 0x96177a9c, 0xb410ff61, 0xf20015ad);
  }
}
