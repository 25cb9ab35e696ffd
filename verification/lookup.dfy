/** Lookup of a registered definition by type name. */
module Lookup {
  import opened Catalogue

  datatype Option<T> = None | Some(value: T)

  /** A summary of a name: its length, first character and last two
      characters, packed into one integer. Distinct summaries mean
      distinct names. */
  function Sig(s: string): int {
    if |s| < 2 then |s|
    else ((|s| * 0x20_0000 + s[0] as int) * 0x20_0000 + s[|s| - 1] as int) * 0x20_0000 + s[|s| - 2] as int
  }

  /** The registry position whose type name has summary sig, if any. For
      every entry i it maps Sig(At(i).typeName) to i, and every other
      integer to None. The table is a balanced comparison tree over the
      130 summaries, sorted; it is not meant to be read by eye:
      EntryAll.EntrySound proves the mapping entry by entry, and
      Integrity.FindIff derives that Find is right for every name. */
  function PositionOfSig(sig: int): Option<nat> {
    if sig < 83010774942458314866 then
      if sig < 46117352765694935150 then
        if sig < 36893923554277458036 then
          if sig < 27670564711539146854 then
            if sig < 27670547119330033780 then
              if sig < 27670542721308688499 then
                if sig < 27670542721306591347 then
                  if sig == 18447205868828098665 then Some(78) else None
                else
                  if sig == 27670542721306591347 then Some(9) else None
              else
                if sig < 27670547119330033769 then
                  if sig == 27670542721308688499 then Some(8) else None
                else
                  if sig == 27670547119330033769 then Some(29) else None
            else
              if sig < 27670551517380739184 then
                if sig < 27670547119353102441 then
                  if sig == 27670547119330033780 then Some(31) else None
                else
                  if sig == 27670547119353102441 then Some(30) else None
              else
                if sig < 27670551517380739190 then
                  if sig == 27670551517380739184 then Some(37) else None
                else
                  if sig == 27670551517380739190 then Some(38) else None
          else
            if sig < 27670621886152179827 then
              if sig < 27670595497745186916 then
                if sig < 27670573507653140581 then
                  if sig == 27670564711539146854 then Some(56) else None
                else
                  if sig == 27670573507653140581 then Some(73) else None
              else
                if sig < 27670608692012646510 then
                  if sig == 27670595497745186916 then Some(83) else None
                else
                  if sig == 27670608692012646510 then Some(94) else None
            else
              if sig < 27670643876384735341 then
                if sig < 27670630682232619122 then
                  if sig == 27670621886152179827 then Some(112) else None
                else
                  if sig == 27670630682232619122 then Some(117) else None
              else
                if sig < 36893923554262777956 then
                  if sig == 27670643876384735341 then Some(125) else None
                else
                  if sig == 36893923554262777956 then Some(36) else None
        else
          if sig < 36893963136666697838 then
            if sig < 36893932350347411568 then
              if sig < 36893927952288317555 then
                if sig < 36893927952282026100 then
                  if sig == 36893923554277458036 then Some(43) else None
                else
                  if sig == 36893927952282026100 then Some(67) else None
              else
                if sig < 36893927952298803305 then
                  if sig == 36893927952288317555 then Some(39) else None
                else
                  if sig == 36893927952298803305 then Some(40) else None
            else
              if sig < 36893941146421559406 then
                if sig < 36893936748375048300 then
                  if sig == 36893932350347411568 then Some(54) else None
                else
                  if sig == 36893936748375048300 then Some(4) else None
              else
                if sig < 36893949942533455969 then
                  if sig == 36893941146421559406 then Some(61) else None
                else
                  if sig == 36893949942533455969 then Some(76) else None
          else
            if sig < 36893998321057661048 then
              if sig < 36893980728859033716 then
                if sig < 36893980728846450804 then
                  if sig == 36893963136666697838 then Some(65) else None
                else
                  if sig == 36893980728846450804 then Some(87) else None
              else
                if sig < 36893993922870640737 then
                  if sig == 36893980728859033716 then Some(97) else None
                else
                  if sig == 36893993922870640737 then Some(100) else None
            else
              if sig < 46117304387197993065 then
                if sig < 36894007117110837363 then
                  if sig == 36893998321057661048 then Some(21) else None
                else
                  if sig == 36894007117110837363 then Some(119) else None
              else
                if sig < 46117313183299403893 then
                  if sig == 46117304387197993065 then Some(53) else None
                else
                  if sig == 46117313183299403893 then Some(70) else None
      else
        if sig < 64564030868725694580 then
          if sig < 55340694016251396197 then
            if sig < 55340667627945066601 then
              if sig < 55340663229795794998 then
                if sig < 46117379153974001781 then
                  if sig == 46117352765694935150 then Some(93) else None
                else
                  if sig == 46117379153974001781 then Some(22) else None
              else
                if sig < 55340663229904846947 then
                  if sig == 55340663229795794998 then Some(74) else None
                else
                  if sig == 55340663229904846947 then Some(0) else None
            else
              if sig < 55340672026010452073 then
                if sig < 55340667627951358067 then
                  if sig == 55340667627945066601 then Some(20) else None
                else
                  if sig == 55340667627951358067 then Some(33) else None
              else
                if sig < 55340680822116057192 then
                  if sig == 55340672026010452073 then Some(42) else None
                else
                  if sig == 55340680822116057192 then Some(60) else None
          else
            if sig < 55340737996586483762 then
              if sig < 55340733598684676197 then
                if sig < 55340720404534657123 then
                  if sig == 55340694016251396197 then Some(23) else None
                else
                  if sig == 55340720404534657123 then Some(14) else None
              else
                if sig < 55340737996582289457 then
                  if sig == 55340733598684676197 then Some(99) else None
                else
                  if sig == 55340737996582289457 then Some(104) else None
            else
              if sig < 55340737996590678069 then
                if sig < 55340737996586483768 then
                  if sig == 55340737996586483762 then Some(101) else None
                else
                  if sig == 55340737996586483768 then Some(103) else None
              else
                if sig < 55340742394767212641 then
                  if sig == 55340737996590678069 then Some(102) else None
                else
                  if sig == 55340742394767212641 then Some(114) else None
        else
          if sig < 73787433691887173741 then
            if sig < 64564096839433846899 then
              if sig < 64564083645264953458 then
                if sig < 64564039664841785458 then
                  if sig == 64564030868725694580 then Some(16) else None
                else
                  if sig == 64564039664841785458 then Some(19) else None
              else
                if sig < 64564096839402389601 then
                  if sig == 64564083645264953458 then Some(10) else None
                else
                  if sig == 64564096839402389601 then Some(129) else None
            else
              if sig < 73787416099701129325 then
                if sig < 73787411701696561266 then
                  if sig == 64564096839433846899 then Some(95) else None
                else
                  if sig == 73787411701696561266 then Some(113) else None
              else
                if sig < 73787424895794151533 then
                  if sig == 73787416099701129325 then Some(66) else None
                else
                  if sig == 73787424895794151533 then Some(57) else None
          else
            if sig < 73787482070291841073 then
              if sig < 73787468876257165426 then
                if sig < 73787451284073218148 then
                  if sig == 73787433691887173741 then Some(75) else None
                else
                  if sig == 73787451284073218148 then Some(17) else None
              else
                if sig < 73787468876290719858 then
                  if sig == 73787468876257165426 then Some(24) else None
                else
                  if sig == 73787468876290719858 then Some(86) else None
            else
              if sig < 73787482070296035384 then
                if sig < 73787482070296035378 then
                  if sig == 73787482070291841073 then Some(108) else None
                else
                  if sig == 73787482070296035378 then Some(105) else None
              else
                if sig < 73787482070300229685 then
                  if sig == 73787482070296035384 then Some(107) else None
                else
                  if sig < 73787490866491818093 then
                    if sig == 73787482070300229685 then Some(106) else None
                  else
                    if sig == 73787490866491818093 then Some(118) else None
    else
      if sig < 129127701097429860453 then
        if sig < 110680891052986990707 then
          if sig < 92234160173437943919 then
            if sig < 83010810126815723621 then
              if sig < 83010796932640538740 then
                if sig < 83010783738536656997 then
                  if sig == 83010774942458314866 then Some(7) else None
                else
                  if sig == 83010783738536656997 then Some(32) else None
              else
                if sig < 83010805728641286244 then
                  if sig == 83010796932640538740 then Some(5) else None
                else
                  if sig == 83010805728641286244 then Some(71) else None
            else
              if sig < 83010823320927993956 then
                if sig < 83010814524832874601 then
                  if sig == 83010810126815723621 then Some(77) else None
                else
                  if sig == 83010814524832874601 then Some(80) else None
              else
                if sig < 83010827718974505072 then
                  if sig == 83010823320927993956 then Some(18) else None
                else
                  if sig == 83010827718974505072 then Some(84) else None
          else
            if sig < 101457523414172434548 then
              if sig < 92234226144005586994 then
                if sig < 92234164571499135076 then
                  if sig == 92234160173437943919 then Some(15) else None
                else
                  if sig == 92234164571499135076 then Some(46) else None
              else
                if sig < 92234226144009781301 then
                  if sig == 92234226144005586994 then Some(109) else None
                else
                  if sig == 92234226144009781301 then Some(110) else None
            else
              if sig < 101457571792713416819 then
                if sig < 101457545404432253029 then
                  if sig == 101457523414172434548 then Some(1) else None
                else
                  if sig == 101457545404432253029 then Some(64) else None
              else
                if sig < 110680891052980699245 then
                  if sig == 101457571792713416819 then Some(82) else None
                else
                  if sig == 110680891052980699245 then Some(25) else None
        else
          if sig < 119904315866391511145 then
            if sig < 119904276283975008373 then
              if sig < 110680908645194006629 then
                if sig < 110680895451058667630 then
                  if sig == 110680891052986990707 then Some(27) else None
                else
                  if sig == 110680895451058667630 then Some(2) else None
              else
                if sig < 110680943829538832496 then
                  if sig == 110680908645194006629 then Some(48) else None
                else
                  if sig == 110680943829538832496 then Some(12) else None
            else
              if sig < 119904280682052976739 then
                if sig < 119904280682050879603 then
                  if sig == 119904276283975008373 then Some(68) else None
                else
                  if sig == 119904280682050879603 then Some(45) else None
              else
                if sig < 119904311468376457321 then
                  if sig == 119904280682052976739 then Some(50) else None
                else
                  if sig == 119904311468376457321 then Some(6) else None
          else
            if sig < 129127648320829784178 then
              if sig < 119904329060554113140 then
                if sig < 119904329060533141620 then
                  if sig == 119904315866391511145 then Some(85) else None
                else
                  if sig == 119904329060533141620 then Some(96) else None
              else
                if sig < 119904342254702035045 then
                  if sig == 119904329060554113140 then Some(26) else None
                else
                  if sig == 119904342254702035045 then Some(58) else None
            else
              if sig < 129127687903248384108 then
                if sig < 129127652718903558245 then
                  if sig == 129127648320829784178 then Some(41) else None
                else
                  if sig == 129127652718903558245 then Some(52) else None
              else
                if sig < 129127687903290327148 then
                  if sig == 129127687903248384108 then Some(13) else None
                else
                  if sig == 129127687903290327148 then Some(11) else None
      else
        if sig < 156797777625575587954 then
          if sig < 138351073134284636261 then
            if sig < 138351024755731071092 then
              if sig < 129127718689573961836 then
                if sig < 129127709893508202597 then
                  if sig == 129127701097429860453 then Some(92) else None
                else
                  if sig == 129127709893508202597 then Some(98) else None
              else
                if sig < 138351011561618800750 then
                  if sig == 129127718689573961836 then Some(115) else None
                else
                  if sig == 138351011561618800750 then Some(28) else None
            else
              if sig < 138351042347959058546 then
                if sig < 138351037949769941092 then
                  if sig == 138351024755731071092 then Some(69) else None
                else
                  if sig == 138351037949769941092 then Some(72) else None
              else
                if sig < 138351073134242693228 then
                  if sig == 138351042347959058546 then Some(44) else None
                else
                  if sig == 138351073134242693228 then Some(88) else None
          else
            if sig < 147574401190632357996 then
              if sig < 138351090726428737644 then
                if sig < 138351086328413683822 then
                  if sig == 138351073134284636261 then Some(91) else None
                else
                  if sig == 138351086328413683822 then Some(111) else None
              else
                if sig < 138351103920595533921 then
                  if sig == 138351090726428737644 then Some(116) else None
                else
                  if sig == 138351103920595533921 then Some(121) else None
            else
              if sig < 147574418782849859694 then
                if sig < 147574401190651232370 then
                  if sig == 147574401190632357996 then Some(55) else None
                else
                  if sig == 147574401190651232370 then Some(59) else None
              else
                if sig < 147574475957454504046 then
                  if sig == 147574418782849859694 then Some(81) else None
                else
                  if sig == 147574475957454504046 then Some(120) else None
        else
          if sig < 175244521699262070895 then
            if sig < 166021140866335244389 then
              if sig < 166021127672174739567 then
                if sig < 156797817207994187890 then
                  if sig == 156797777625575587954 then Some(63) else None
                else
                  if sig == 156797817207994187890 then Some(89) else None
              else
                if sig < 166021140866295398509 then
                  if sig == 166021127672174739567 then Some(3) else None
                else
                  if sig == 166021140866295398509 then Some(47) else None
            else
              if sig < 175244504107055054953 then
                if sig < 166021189244802826345 then
                  if sig == 166021140866335244389 then Some(51) else None
                else
                  if sig == 166021189244802826345 then Some(90) else None
              else
                if sig < 175244512903192117362 then
                  if sig == 175244504107055054953 then Some(35) else None
                else
                  if sig == 175244512903192117362 then Some(49) else None
          else
            if sig < 193691340539634384993 then
              if sig < 184467964104842149997 then
                if sig < 175244534893282066532 then
                  if sig == 175244521699262070895 then Some(62) else None
                else
                  if sig == 175244534893282066532 then Some(79) else None
              else
                if sig < 184467968502787997796 then
                  if sig == 184467964104842149997 then Some(124) else None
                else
                  if sig == 184467968502787997796 then Some(126) else None
            else
              if sig < 212137992254507712622 then
                if sig < 202914708178564284531 then
                  if sig == 193691340539634384993 then Some(127) else None
                else
                  if sig == 202914708178564284531 then Some(122) else None
              else
                if sig < 212138084613354422325 then
                  if sig == 212137992254507712622 then Some(34) else None
                else
                  if sig < 249031568362825580653 then
                    if sig == 212138084613354422325 then Some(128) else None
                  else
                    if sig == 249031568362825580653 then Some(123) else None
  }

  /** The registry position of the definition named name, if any. */
  function Find(name: string): (r: Option<nat>)
    ensures r.Some? ==> r.value < Count && At(r.value).typeName == name
  {
    match PositionOfSig(Sig(name))
    case Some(i) => if i < Count && At(i).typeName == name then Some(i) else None
    case None => None
  }
}
