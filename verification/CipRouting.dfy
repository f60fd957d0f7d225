/** Valves of one CIP line and the routing each kind of step asks for. */
module CipRouting {
  import opened CipProgram

  /** Where liquid comes from, where it goes, and what is circulated. */
  datatype Medium =
    | TankW | TankS | TankK | Water | Kanal
    | WithWater | WithReturn
    | Shch | Kisl | HotWater | Sanitizer
    | Neutro | TankWHead | TankSHead | TankKHead
    | NoMedium

  /** V00..V04 choose what feeds the line. */
  datatype Feed = Feed(v00: bool, v01: bool, v02: bool, v03: bool, v04: bool)

  /** V07..V12 choose where the return goes. */
  datatype Ret = Ret(v07: bool, v08: bool, v09: bool, v10: bool, v11: bool, v12: bool)

  /** V05 leads to the washed object, V06 back to the tanks, V13 is steam. */
  datatype Valves = Valves(feed: Feed, v05: bool, v06: bool, ret: Ret, v13: bool)

  /** What a step does, with the media it works on. */
  datatype Act =
    | Idle
    | ToObject(from: Medium, where: Medium)
    | FromObject(from: Medium, where: Medium)
    | OporCip(where: Medium)
    | FillCirc(with: Medium)
    | Circ(what: Medium)
    | OporCirc(where: Medium)
    | DoseRR
    | FilRR(tank: Medium)
    | CircRR(tank: Medium)
    | CheckConc(tank: Medium)
    | AddRR(tank: Medium)
    | OpolRR(tank: Medium)
    | Pump(from: Medium, where: Medium)
    | Custom
    | Finish
    | Unknown

  datatype Options = Options(
    choice: Choice,
    noWaterTank: bool,     // the secondary water tank must not be used
    rinseTo: Medium,       // where clean rinsing water returns to
    noNeutro: bool,        // no neutralisation: use the sewer instead
    oldValves: bool,       // self-clean heads with old style valves
    feedS: bool, feedK: bool, feedW: bool, maxFeeds: nat,
    keepPump: bool)        // do not stop the return pump on a full vessel

  function SecondWaterFrom(o: Options): Medium { if o.noWaterTank then Water else TankW }

  function SecondWaterTo(o: Options): Medium { if o.noWaterTank then Kanal else TankW }

  function RinseMedium(step: int, program: nat, o: Options): Medium {
    if !o.noWaterTank && 30 < step < 42 && Bit(program, PRG_K) then TankW else Water
  }

  /** The switch of _InitStep. */
  function InitAct(step: int, program: nat, o: Options): Act {
    match step
    case 0 => Idle
    case 5 => ToObject(SecondWaterFrom(o), Kanal)
    case 6 => OporCip(Kanal)
    case 7 => FromObject(SecondWaterFrom(o), Kanal)
    case 8 => ToObject(SecondWaterFrom(o), Kanal)
    case 9 => OporCip(Kanal)
    case 10 => FillCirc(WithReturn)
    case 11 => Circ(Water)
    case 12 => OporCirc(Kanal)
    case 13 => FillCirc(WithReturn)
    case 14 => ToObject(SecondWaterFrom(o), Kanal)
    case 15 => OporCirc(Kanal)
    case 16 => OporCirc(Kanal)
    case 22 => ToObject(TankS, Kanal)
    case 23 => OporCip(Kanal)
    case 24 => FromObject(TankS, Kanal)
    case 26 => FillCirc(WithReturn)
    case 28 => Circ(Shch)
    case 29 => OporCirc(TankS)
    case 31 => FillCirc(WithWater)
    case 33 => ToObject(RinseMedium(step, program, o), TankS)
    case 34 => OporCip(TankS)
    case 35 => FromObject(RinseMedium(step, program, o), TankS)
    case 37 => ToObject(RinseMedium(step, program, o), SecondWaterTo(o))
    case 39 => OporCirc(SecondWaterTo(o))
    case 40 => OporCip(SecondWaterTo(o))
    case 42 => ToObject(TankK, Kanal)
    case 43 => OporCip(Kanal)
    case 44 => FromObject(TankK, Kanal)
    case 46 => FillCirc(WithReturn)
    case 48 => Circ(Kisl)
    case 49 => OporCirc(TankK)
    case 53 => ToObject(Water, TankK)
    case 54 => OporCip(TankK)
    case 55 => FromObject(Water, TankK)
    case 57 => ToObject(Water, SecondWaterTo(o))
    case 59 => OporCirc(SecondWaterTo(o))
    case 60 => OporCip(SecondWaterTo(o))
    case 61 => FillCirc(WithWater)
    case 62 => ToObject(Water, SecondWaterTo(o))
    case 63 => OporCip(SecondWaterTo(o))
    case 64 => FromObject(Water, SecondWaterTo(o))
    case 65 => FillCirc(WithWater)
    case 66 => Circ(HotWater)
    case 67 => OporCirc(SecondWaterTo(o))
    case 71 => FillCirc(Sanitizer)
    case 72 => ToObject(Sanitizer, SecondWaterTo(o))
    case 73 => OporCip(SecondWaterTo(o))
    case 74 => FromObject(Sanitizer, SecondWaterTo(o))
    case 75 => FillCirc(Sanitizer)
    case 76 => DoseRR
    case 77 => Circ(Sanitizer)
    case 78 => OporCirc(Kanal)
    case 79 => OporCip(Kanal)
    case 81 => FillCirc(WithWater)
    case 83 => ToObject(Water, o.rinseTo)
    case 84 => OporCip(o.rinseTo)
    case 85 => FromObject(Water, o.rinseTo)
    case 86 => ToObject(Water, o.rinseTo)
    case 91 => OporCip(o.rinseTo)
    case 105 => FilRR(TankS)
    case 106 => CircRR(TankS)
    case 108 => CheckConc(TankS)
    case 109 => AddRR(TankS)
    case 111 => OpolRR(TankS)
    case 115 => FilRR(TankK)
    case 116 => CircRR(TankK)
    case 118 => CheckConc(TankK)
    case 119 => AddRR(TankK)
    case 121 => OpolRR(TankK)
    case 151 => Pump(TankW, Kanal)
    case 152 => Pump(TankW, Kanal)
    case 153 => Pump(Water, TankWHead)
    case 154 => Pump(NoMedium, NoMedium)
    case 155 => Pump(TankS, TankS)
    case 156 => Pump(TankS, TankWHead)
    case 157 => Pump(TankS, TankWHead)
    case 160 => Pump(Water, TankS)
    case 161 => Pump(TankW, TankWHead)
    case 162 => Pump(TankK, TankK)
    case 163 => Pump(TankK, TankSHead)
    case 164 => Pump(TankK, TankSHead)
    case 167 => Pump(Water, TankKHead)
    case 168 => Pump(TankS, TankSHead)
    case 169 => Pump(TankW, TankKHead)
    case 170 => Pump(TankW, TankKHead)
    case 173 => Pump(Water, TankW)
    case 174 => Pump(TankK, TankKHead)
    case 175 => Pump(TankS, TankWHead)
    case 176 => Pump(TankS, Neutro)
    case 177 => Pump(TankS, TankWHead)
    case 178 => Pump(TankS, Neutro)
    case 179 => Pump(Water, TankSHead)
    case 180 => Pump(TankW, TankWHead)
    case 181 => Pump(TankK, Neutro)
    case 182 => Pump(TankK, Neutro)
    case 183 => Pump(TankW, Neutro)
    case 184 => Pump(TankW, Neutro)
    case 185 => Pump(Water, TankSHead)
    case 186 => Pump(Water, TankKHead)
    case 187 => Pump(Water, TankWHead)
    case 188 => Pump(NoMedium, NoMedium)
    case 300 => Custom
    case 555 => Finish
    case _ => Unknown
  }

  /** The switch of _DoStep. */
  function DoAct(step: int, program: nat, o: Options): Act {
    match step
    case 0 => Idle
    case 5 => ToObject(SecondWaterFrom(o), Kanal)
    case 6 => OporCip(Kanal)
    case 7 => FromObject(SecondWaterFrom(o), Kanal)
    case 8 => ToObject(SecondWaterFrom(o), Kanal)
    case 9 => OporCip(Kanal)
    case 10 => FillCirc(WithReturn)
    case 11 => Circ(Water)
    case 12 => OporCirc(Kanal)
    case 13 => FillCirc(WithReturn)
    case 14 => ToObject(SecondWaterFrom(o), Kanal)
    case 15 => OporCirc(Kanal)
    case 16 => OporCirc(Kanal)
    case 22 => ToObject(TankS, Kanal)
    case 23 => OporCip(Kanal)
    case 24 => FromObject(TankS, Kanal)
    case 26 => FillCirc(WithReturn)
    case 28 => Circ(Shch)
    case 29 => OporCirc(TankS)
    case 31 => FillCirc(WithWater)
    case 33 => ToObject(RinseMedium(step, program, o), TankS)
    case 34 => OporCip(TankS)
    case 35 => FromObject(RinseMedium(step, program, o), TankS)
    case 37 => ToObject(RinseMedium(step, program, o), SecondWaterTo(o))
    case 39 => OporCirc(SecondWaterTo(o))
    case 40 => OporCip(SecondWaterTo(o))
    case 42 => ToObject(TankK, Kanal)
    case 43 => OporCip(Kanal)
    case 44 => FromObject(TankK, Kanal)
    case 46 => FillCirc(WithReturn)
    case 48 => Circ(Kisl)
    case 49 => OporCirc(TankK)
    case 53 => ToObject(Water, TankK)
    case 54 => OporCip(TankK)
    case 55 => FromObject(Water, TankK)
    case 57 => ToObject(Water, SecondWaterTo(o))
    case 59 => OporCirc(SecondWaterTo(o))
    case 60 => OporCip(SecondWaterTo(o))
    case 61 => FillCirc(WithWater)
    case 62 => ToObject(Water, SecondWaterTo(o))
    case 63 => OporCip(SecondWaterTo(o))
    case 64 => FromObject(Water, SecondWaterTo(o))
    case 65 => FillCirc(WithWater)
    case 66 => Circ(HotWater)
    case 67 => OporCirc(SecondWaterTo(o))
    case 71 => FillCirc(Sanitizer)
    case 72 => ToObject(Sanitizer, SecondWaterTo(o))
    case 73 => OporCip(SecondWaterTo(o))
    case 74 => FromObject(Sanitizer, SecondWaterTo(o))
    case 75 => FillCirc(Sanitizer)
    case 76 => DoseRR
    case 77 => Circ(Sanitizer)
    case 78 => OporCirc(Kanal)
    case 79 => OporCip(Kanal)
    case 81 => FillCirc(WithWater)
    case 83 => ToObject(Water, o.rinseTo)
    case 84 => OporCip(o.rinseTo)
    case 85 => FromObject(Water, o.rinseTo)
    case 86 => ToObject(Water, o.rinseTo)
    case 91 => OporCip(o.rinseTo)
    case 105 => FilRR(TankS)
    case 106 => CircRR(TankS)
    case 108 => CheckConc(TankS)
    case 109 => AddRR(TankS)
    case 111 => OpolRR(TankS)
    case 115 => FilRR(TankK)
    case 116 => CircRR(TankK)
    case 118 => CheckConc(TankK)
    case 119 => AddRR(TankK)
    case 121 => OpolRR(TankK)
    case 151 => Pump(TankW, Kanal)
    case 152 => Pump(TankW, Kanal)
    case 153 => Pump(Water, TankWHead)
    case 154 => Pump(NoMedium, NoMedium)
    case 155 => Pump(TankS, TankS)
    case 156 => Pump(TankS, TankWHead)
    case 157 => Pump(TankS, TankWHead)
    case 160 => Pump(Water, TankS)
    case 161 => Pump(TankW, TankWHead)
    case 162 => Pump(TankK, TankK)
    case 163 => Pump(TankK, TankSHead)
    case 164 => Pump(TankK, TankSHead)
    case 167 => Pump(Water, TankKHead)
    case 168 => Pump(TankS, TankSHead)
    case 169 => Pump(TankW, TankKHead)
    case 170 => Pump(TankW, TankKHead)
    case 173 => Pump(Water, TankW)
    case 174 => Pump(TankK, TankKHead)
    case 175 => Pump(TankS, TankWHead)
    case 176 => Pump(TankS, TankWHead)
    case 179 => Pump(Water, TankSHead)
    case 180 => Pump(TankW, TankWHead)
    case 181 => Pump(TankK, Neutro)
    case 182 => Pump(TankK, Neutro)
    case 183 => Pump(TankW, Neutro)
    case 184 => Pump(TankW, Neutro)
    case 185 => Pump(Water, TankSHead)
    case 186 => Pump(Water, TankKHead)
    case 187 => Pump(Water, TankWHead)
    case 188 => Pump(NoMedium, NoMedium)
    case 300 => Custom
    case 555 => Finish
    case _ => Unknown
  }

  /**
    * The two switches drive the same media at every step but three
    * self-clean steps.
    */
  lemma TablesAgree(step: int, program: nat, o: Options)
    ensures InitAct(step, program, o) == DoAct(step, program, o) <==> step !in {176, 177, 178}
  {
    assert InitAct(176, program, o) != DoAct(176, program, o);
    assert InitAct(177, program, o) != DoAct(177, program, o);
    assert InitAct(178, program, o) != DoAct(178, program, o);
  }

  // ---- Routing, stated by purpose rather than valve by valve ----

  const FEED_SHUT := Feed(false, false, false, false, false)
  const RETURN_SHUT := Ret(false, false, false, false, false, false)

  /** Exactly one source feeds the line; town water comes through V00 and V01. */
  function FeedFrom(f: Feed, from: Medium): Feed {
    var town := from.Water? || from.Sanitizer?;
    if town || from.TankW? || from.TankK? || from.TankS? then
      Feed(town, town, from.TankK?, from.TankS?, from.TankW?)
    else f
  }

  /** Exactly one destination takes the return. */
  function ReturnTo(r: Ret, where: Medium): Ret {
    if where.Kanal? || where.TankW? || where.TankK? || where.TankS? then
      Ret(where.TankW?, where.TankK?, where.TankS?, false, where.Kanal?, false)
    else r
  }

  /** Town water tops the vessel up between its middle and its upper level. */
  function TopUp(f: Feed, lm: bool, lh: bool): Feed {
    f.(v00 := !lh && (f.v00 || !lm))
  }

  predicate IsSolution(m: Medium) { m.TankK? || m.TankS? }

  /** The return of a solution, by its concentration. */
  datatype Grade = ToSewer | ToNeutral | ToTank

  function SortedReturn(r: Ret, where: Medium, g: Grade, noNeutro: bool): Ret {
    if IsSolution(where) then
      Ret(false, where.TankK? && g.ToTank?, where.TankS? && g.ToTank?, false,
          g.ToSewer? || (g.ToNeutral? && noNeutro), g.ToNeutral? && !noNeutro)
    else r.(v07 := false)
  }

  /** A solution tank circulates into itself. */
  function TankLoop(v: Valves, tank: Medium): Valves {
    if IsSolution(tank) then
      Valves(Feed(false, false, tank.TankK?, tank.TankS?, false), false, true,
             Ret(false, tank.TankK?, tank.TankS?, false, false, false), v.v13)
    else
      Valves(Feed(false, false, v.feed.v02, v.feed.v03, false), false, true,
             Ret(false, v.ret.v08, v.ret.v09, false, false, false), v.v13)
  }

  /** Self-cleaning pumps from one tank to a tank, a washing head or away. */
  function PumpFeed(f: Feed, from: Medium): Feed {
    Feed(f.v00, from.Water?, from.TankK?, from.TankS?, from.TankW?)
  }

  function PumpReturn(where: Medium, o: Options): Ret {
    Ret(where.TankW? || (where.TankWHead? && !o.oldValves),
        where.TankK? || (where.TankKHead? && !o.oldValves),
        where.TankS? || (where.TankSHead? && !o.oldValves),
        false,
        where.Kanal? || (where.Neutro? && o.noNeutro),
        where.Neutro? && !o.noNeutro)
  }

  predicate PumpsSomewhere(where: Medium) {
    where.Kanal? || where.Neutro? || where.TankW? || where.TankWHead?
    || where.TankK? || where.TankKHead? || where.TankS? || where.TankSHead?
  }
}
