/** The constant command blocks of the HX8379 driver: each one is a command
    id followed by its parameter bytes, and several parameter bytes are the
    bitwise OR of named register-field values. */
module Tables {

  // Command ids
  const SET_ADDRESS: bv8 := 0x36
  const SET_TEAR: bv8 := 0x35
  const SETPOWER: bv8 := 0xB1
  const SETDISP: bv8 := 0xB2
  const SETCYC: bv8 := 0xB4
  const SETVCOM: bv8 := 0xB6
  const SETEXTC: bv8 := 0xB9
  const SETBANK: bv8 := 0xBD
  const SETDGCLUT: bv8 := 0xC1
  const SETPANEL: bv8 := 0xCC
  const SETGIP0: bv8 := 0xD3
  const SETGIP1: bv8 := 0xD5
  const SETGIP2: bv8 := 0xD6
  const SETGAMMA: bv8 := 0xE0

  // Scan-direction flags of SET_ADDRESS
  const FLIP_HORIZONTAL: bv8 := 1 << 1
  const FLIP_VERTICAL: bv8 := 1 << 0

  // SETPOWER fields
  const POWER_AP_2_0UA: bv8 := 0x4
  const POWER_APF_EN: bv8 := 0x40
  const POWER_VRHP_5_8V: bv8 := 0x1C
  const POWER_VRHN_5_8V: bv8 := 0x1C
  const POWER_BTP_6_45V: bv8 := 0x17
  const POWER_EN_VSP_CLAMP: bv8 := 0x20
  const POWER_BTN_6_45V: bv8 := 0x17
  const POWER_XDK_X2_5: bv8 := 0x40
  const POWER_XDKN_X3: bv8 := 0x80
  const POWER_EN_VSN_CLAMP: bv8 := 0x10
  const POWER_VCLS_3_1V: bv8 := 0xC0
  const POWER_PMTU: bv8 := 0x10
  const POWER_VGH_RATIO_3VSPVSN: bv8 := 0xC0
  const POWER_VGHS_13_2V: bv8 := 0x22
  const POWER_VGL_RATIO_1VSNVSP: bv8 := 0x40
  const POWER_VGLS_11_2V: bv8 := 0x18
  const POWER_EN_NVREF: bv8 := 0x80
  const POWER_VGH_17_6V: bv8 := 0x38
  const POWER_VGL_17_6V: bv8 := 0x38
  const POWER_CLK_OPT5_VCL_HSYNC_RST: bv8 := 0x80
  const POWER_FS0_DIV_8: bv8 := 0x02
  const POWER_FS1_DIV_160: bv8 := 0x40
  const POWER_FS2_DIV_160: bv8 := 0x04
  const POWER_FS3_DIV_128: bv8 := 0x30
  const POWER_FS4_DIV_128: bv8 := 0x03
  const POWER_FS5_DIV_128: bv8 := 0x30

  // SETDISP fields
  const DISP_ZZ_LR: bv8 := 0x80
  const DISP_NL_480: bv8 := 0x14
  const DISP_BP_14: bv8 := 0xC
  const DISP_FP_50: bv8 := 0x30
  const DISP_SAP_4: bv8 := 0x20
  const DISP_RTN_160: bv8 := 0x50

  // SETCYC fields
  const CYC_SPON_1: bv8 := 0x01
  const CYC_SPOFF_170: bv8 := 0xAA
  const CYC_CON_1: bv8 := 0x01
  const CYC_COFF_175: bv8 := 0xAF
  const CYC_CON1_1: bv8 := 0x01
  const CYC_COFF1_175: bv8 := 0xAF
  const CYC_EQON1_64: bv8 := 0x10
  const CYC_EQON2_936: bv8 := 0xEA
  const CYC_SON_112: bv8 := 0x1C
  const CYC_SOFF_936: bv8 := 0xEA

  // SETPANEL fields
  const REV_PANEL: bv8 := 1 << 1

  const GIP0_EQ_DELAY_56: bv8 := 0x07

  const GAMMA_VRP0: bv8 := 0x00
  const GAMMA_VRP1: bv8 := 0x16

  const VCMC_F_0_74V: bv8 := 0x2C
  const VCMC_B_0_74V: bv8 := 0x92

  const TEAR_VBLANK: bv8 := 0x0

  const EXTC1_MAGIC: bv8 := 0xFF
  const EXTC2_MAGIC: bv8 := 0x83
  const EXTC3_MAGIC: bv8 := 0x79

  const EnableExtension: seq<bv8> := [SETEXTC, EXTC1_MAGIC, EXTC2_MAGIC, EXTC3_MAGIC]

  /** Defined by the driver but never transmitted. */
  const AddressConfig: seq<bv8> := [SET_ADDRESS, FLIP_HORIZONTAL]

  const PowerConfig: seq<bv8> := [
    SETPOWER,
    POWER_APF_EN | POWER_AP_2_0UA,
    POWER_VRHP_5_8V,
    POWER_VRHN_5_8V,
    POWER_EN_VSP_CLAMP | POWER_BTP_6_45V,
    POWER_XDK_X2_5 | POWER_BTN_6_45V,
    POWER_XDKN_X3 | POWER_EN_VSN_CLAMP,
    POWER_VCLS_3_1V | POWER_PMTU,
    POWER_VGH_RATIO_3VSPVSN | POWER_VGHS_13_2V,
    POWER_VGL_RATIO_1VSNVSP | POWER_VGLS_11_2V,
    POWER_EN_NVREF,
    POWER_VGH_17_6V,
    POWER_VGL_17_6V,
    POWER_CLK_OPT5_VCL_HSYNC_RST,
    POWER_FS5_DIV_128 | POWER_FS4_DIV_128,
    POWER_FS3_DIV_128 | POWER_FS2_DIV_160,
    POWER_FS1_DIV_160 | POWER_FS0_DIV_8
  ]

  const LineConfig: seq<bv8> := [
    SETDISP, DISP_ZZ_LR, DISP_NL_480, DISP_BP_14, DISP_FP_50, DISP_SAP_4, DISP_RTN_160,
    0x11, 0x42, 0x1D
  ]

  const CycleConfig: seq<bv8> := [
    SETCYC, CYC_SPON_1, CYC_SPOFF_170, CYC_CON_1, CYC_COFF_175, CYC_CON1_1, CYC_COFF1_175,
    CYC_EQON1_64, CYC_EQON2_936, CYC_SON_112, CYC_SOFF_936
  ]

  /** Undocumented vendor command (0xC7). */
  const Cmd1: seq<bv8> := [0xC7, 0x00, 0x00, 0x00, 0xC0]

  const PanelConfig: seq<bv8> := [SETPANEL, REV_PANEL]

  /** Undocumented vendor command (0xD2). */
  const Cmd3: seq<bv8> := [0xD2, 0x77]

  const Gip0Config: seq<bv8> := [
    SETGIP0,
    0x00, GIP0_EQ_DELAY_56, 0x00, 0x00, 0x00, 0x08, 0x08, 0x32, 0x10, 0x01,
    0x00, 0x01, 0x03, 0x72, 0x03, 0x72, 0x00, 0x08, 0x00, 0x08,
    0x33, 0x33, 0x05, 0x05, 0x37, 0x05, 0x05, 0x37, 0x0A, 0x00,
    0x00, 0x00, 0x0A, 0x00, 0x01, 0x00, 0x0E
  ]

  const Gip1Config: seq<bv8> := [
    SETGIP1,
    0x18, 0x18, 0x18, 0x18, 0x18, 0x18, 0x18, 0x18, 0x19, 0x19,
    0x18, 0x18, 0x18, 0x18, 0x19, 0x19, 0x01, 0x00, 0x03, 0x02,
    0x05, 0x04, 0x07, 0x06, 0x23, 0x22, 0x21, 0x20, 0x18, 0x18,
    0x18, 0x18, 0x00, 0x00
  ]

  const Gip2Config: seq<bv8> := [
    SETGIP2,
    0x18, 0x18, 0x18, 0x18, 0x18, 0x18, 0x18, 0x18, 0x19, 0x19,
    0x18, 0x18, 0x19, 0x19, 0x18, 0x18, 0x06, 0x07, 0x04, 0x05,
    0x02, 0x03, 0x00, 0x01, 0x20, 0x21, 0x22, 0x23, 0x18, 0x18,
    0x18, 0x18
  ]

  const GammaConfig: seq<bv8> := [
    SETGAMMA,
    GAMMA_VRP0, GAMMA_VRP1, 0x1B, 0x30, 0x36, 0x3F, 0x24, 0x40, 0x09, 0x0D,
    0x0F, 0x18, 0x0E, 0x11, 0x12, 0x11, 0x14, 0x07, 0x12, 0x13,
    0x18, 0x00, 0x17, 0x1C, 0x30, 0x36, 0x3F, 0x24, 0x40, 0x09,
    0x0C, 0x0F, 0x18, 0x0E, 0x11, 0x14, 0x11, 0x12, 0x07, 0x12,
    0x14, 0x18
  ]

  const VcomConfig: seq<bv8> := [SETVCOM, VCMC_F_0_74V, VCMC_B_0_74V, 0x00]

  /** Digital gamma LUT, bank 2 (blue): 33 high parts, then 9 bytes of packed low bits. */
  const Bank2: seq<bv8> := [
    SETDGCLUT,
    0x00, 0x09, 0x0F, 0x18, 0x21, 0x2A, 0x34, 0x3C, 0x45, 0x4C,
    0x56, 0x5E, 0x66, 0x6E, 0x76, 0x7E, 0x87, 0x8E, 0x95, 0x9D,
    0xA6, 0xAF, 0xB7, 0xBD, 0xC5, 0xCE, 0xD5, 0xDF, 0xE7, 0xEE,
    0xF4, 0xFA, 0xFF,
    0x0C, 0x31, 0x83, 0x3C, 0x5B, 0x56, 0x1E, 0x5A, 0xFF
  ]

  /** Digital gamma LUT, bank 1 (green). */
  const Bank1: seq<bv8> := [
    SETDGCLUT,
    0x00, 0x08, 0x0F, 0x16, 0x1F, 0x28, 0x31, 0x39, 0x41, 0x48,
    0x51, 0x59, 0x60, 0x68, 0x70, 0x78, 0x7F, 0x87, 0x8D, 0x94,
    0x9C, 0xA3, 0xAB, 0xB3, 0xB9, 0xC1, 0xC8, 0xD0, 0xD8, 0xE0,
    0xE8, 0xEE, 0xF5,
    0x3B, 0x1A, 0xB6, 0xA0, 0x07, 0x45, 0xC5, 0x37, 0x00
  ]

  /** Digital gamma LUT, bank 0 (red), led by the DGC_EN byte that enables the curve. */
  const Bank0: seq<bv8> := [
    SETDGCLUT,
    0x01,
    0x00, 0x07, 0x0F, 0x16, 0x1F, 0x27, 0x30, 0x38, 0x40, 0x47,
    0x4E, 0x56, 0x5D, 0x65, 0x6D, 0x74, 0x7D, 0x84, 0x8A, 0x90,
    0x99, 0xA1, 0xA9, 0xB0, 0xB6, 0xBD, 0xC4, 0xCD, 0xD4, 0xDD,
    0xE5, 0xEC, 0xF3,
    0x36, 0x07, 0x1C, 0xC0, 0x1B, 0x01, 0xF1, 0x34, 0x00
  ]

  /** Defined by the driver but never transmitted. */
  const TearConfig: seq<bv8> := [SET_TEAR, TEAR_VBLANK]

  /** Every block opens with the command id it programs; the three LUT
      banks all use SETDGCLUT. */
  lemma CommandIds()
    ensures EnableExtension[0] == 0xB9 && PowerConfig[0] == 0xB1
    ensures LineConfig[0] == 0xB2 && CycleConfig[0] == 0xB4
    ensures Cmd1[0] == 0xC7 && PanelConfig[0] == 0xCC && Cmd3[0] == 0xD2
    ensures Gip0Config[0] == 0xD3 && Gip1Config[0] == 0xD5 && Gip2Config[0] == 0xD6
    ensures GammaConfig[0] == 0xE0 && VcomConfig[0] == 0xB6
    ensures Bank2[0] == 0xC1 && Bank1[0] == 0xC1 && Bank0[0] == 0xC1
    ensures AddressConfig == [0x36, 0x02] && TearConfig == [0x35, 0x00]
  {
  }

  /** The transmitted byte count of every block (the C sizeof of each array). */
  lemma BlockLengths()
    ensures |EnableExtension| == 4 && |PowerConfig| == 17 && |LineConfig| == 10
    ensures |CycleConfig| == 11 && |Cmd1| == 5 && |PanelConfig| == 2 && |Cmd3| == 2
    ensures |Gip0Config| == 38 && |Gip1Config| == 35 && |Gip2Config| == 33
    ensures |GammaConfig| == 43 && |VcomConfig| == 4
    ensures |Bank2| == 43 && |Bank1| == 43 && |Bank0| == 44
  {
  }

  /** The OR-composed power parameters evaluate to the values annotated
      beside them, except P13, whose annotation says F8 while the named
      field it is built from is 0x80. */
  lemma PowerConfigBytes()
    ensures PowerConfig == [
      0xB1, 0x44, 0x1C, 0x1C, 0x37, 0x57, 0x90, 0xD0, 0xE2,
      0x58, 0x80, 0x38, 0x38, 0x80, 0x33, 0x34, 0x42]
    ensures PowerConfig[13] != 0xF8
  {
  }

  /** The bytes sent where the per-parameter annotations beside the arrays
      say otherwise: P13 of the power block is 0x80 (annotated F8); the
      second VCOM parameter is 0x92 (annotated 2C); and of the 37 GIP0
      parameters, all annotated 00, only these twelve are zero. */
  lemma AnnotatedBytes()
    ensures PowerConfig[13] == 0x80 && VcomConfig[2] == 0x92
    ensures forall j :: 1 <= j < |Gip0Config| ==>
      (Gip0Config[j] == 0x00 <==> j in {1, 3, 4, 5, 11, 17, 19, 30, 31, 32, 34, 36})
    ensures Gip0Config[2] == 0x07 && Gip0Config[8] == 0x32 && Gip0Config[37] == 0x0E
  {
  }

  /** The extension, display-line, cycle, panel and VCOM blocks, byte for
      byte, as their named fields evaluate (the second VCOM byte is 0x92, not
      the 2C annotated beside it; see AnnotatedBytes). */
  lemma FieldBytes()
    ensures LineConfig == [0xB2, 0x80, 0x14, 0x0C, 0x30, 0x20, 0x50, 0x11, 0x42, 0x1D]
    ensures CycleConfig == [0xB4, 0x01, 0xAA, 0x01, 0xAF, 0x01, 0xAF, 0x10, 0xEA, 0x1C, 0xEA]
    ensures PanelConfig == [0xCC, 0x02]
    ensures EnableExtension == [0xB9, 0xFF, 0x83, 0x79]
    ensures VcomConfig == [0xB6, 0x2C, 0x92, 0x00]
  {
  }
}
