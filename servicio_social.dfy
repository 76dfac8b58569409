/**
 * The social-service hours tracker (Taller_1/script.js): a menu loop over three globals, the
 * accumulated hours, the student's name and the loop flag. The answers to `prompt` are passed
 * in, already through `parseInt` where the script applies it (None stands for NaN, or for a
 * cancelled prompt where a string is asked), and what the script logs comes back as an outcome.
 */
module ServicioSocial {
  import opened Wrappers

  const HORAS_REQUERIDAS: int := 80

  /** The three globals. `nombre` None is the null a cancelled prompt leaves behind. */
  datatype State = State(horas: int, nombre: Option<string>, continuar: bool)

  const Initial: State := State(0, Some(""), true)

  /** The answers one pass of the loop reads: the menu option, then for option 1 name, place and hours. */
  datatype Entrada = Entrada(opcion: Option<int>, nombre: Option<string>, lugar: Option<string>, horas: Option<int>)

  datatype RegistroOutcome =
    | AlreadyComplete
    | InvalidHours
      /** `registradas` were added, `exceso` were discarded, and the total is now `acumuladas`. */
    | Recorded(lugar: Option<string>, registradas: int, exceso: int, acumuladas: int)

  datatype ConsultaOutcome =
    | NoRecords
    | Report(nombre: Option<string>, acumuladas: int, faltan: int, completo: bool)

  datatype MenuOutcome = Registro(r: RegistroOutcome) | Consulta(c: ConsultaOutcome) | Salida | OpcionInvalida

  function Min(a: int, b: int): int
  {
    if a <= b then a else b
  }

  /** The reachable states: the accumulated hours stay within [0, HORAS_REQUERIDAS]. */
  predicate Bounded(s: State)
  {
    0 <= s.horas <= HORAS_REQUERIDAS
  }

  /**
   * The state after registrarHoras: nothing changes once the hours are complete; otherwise the
   * name is taken if it is still empty, and valid hours raise the total, capped at 80.
   */
  function AfterRegistro(s: State, nombre: Option<string>, horas: Option<int>): State
  {
    if s.horas >= HORAS_REQUERIDAS then s
    else
      var named := if s.nombre == Some("") then s.(nombre := nombre) else s;
      if horas.None? || horas.value <= 0 then named
      else named.(horas := Min(s.horas + horas.value, HORAS_REQUERIDAS))
  }

  /** One pass of the menu loop. */
  function Step(s: State, e: Entrada): State
  {
    if e.opcion == Some(1) then AfterRegistro(s, e.nombre, e.horas)
    else if e.opcion == Some(3) then s.(continuar := false)
    else s
  }

  /** The loop over a finite sequence of answers: it stops at the end of the input or after option 3. */
  function Run(s: State, es: seq<Entrada>): State
    decreases |es|
  {
    if es == [] || !s.continuar then s else Run(Step(s, es[0]), es[1..])
  }

  /** registrarHoras keeps the hours within bounds. */
  lemma RegistroBounded(s: State, nombre: Option<string>, horas: Option<int>)
    requires Bounded(s)
    ensures Bounded(AfterRegistro(s, nombre, horas))
  {
  }

  /** Hours already complete: registrarHoras changes nothing, not even the name. */
  lemma RegistroCompleteUnchanged(s: State, nombre: Option<string>, horas: Option<int>)
    requires s.horas >= HORAS_REQUERIDAS
    ensures AfterRegistro(s, nombre, horas) == s
  {
  }

  /** NaN or non-positive hours leave the total alone; only the name may have been recorded. */
  lemma RegistroInvalidHours(s: State, nombre: Option<string>, horas: Option<int>)
    requires horas.None? || horas.value <= 0
    ensures AfterRegistro(s, nombre, horas).horas == s.horas
    ensures AfterRegistro(s, nombre, horas).continuar == s.continuar
  {
  }

  /** Valid hours h on an incomplete total give min(old + h, 80). */
  lemma RegistroClamp(s: State, nombre: Option<string>, h: int)
    requires s.horas < HORAS_REQUERIDAS && h > 0
    ensures AfterRegistro(s, nombre, Some(h)).horas == Min(s.horas + h, HORAS_REQUERIDAS)
  {
  }

  /** The name is asked for and set only while it is empty. */
  lemma NombreOnlyWhenEmpty(s: State, nombre: Option<string>, horas: Option<int>)
    ensures s.nombre != Some("") ==> AfterRegistro(s, nombre, horas).nombre == s.nombre
    ensures s.nombre == Some("") && s.horas < HORAS_REQUERIDAS ==> AfterRegistro(s, nombre, horas).nombre == nombre
  {
  }

  /** Option 3 ends the loop; any option but 1 and 3 changes nothing. */
  lemma StepOptions(s: State, e: Entrada)
    ensures e.opcion == Some(3) ==> Step(s, e) == s.(continuar := false)
    ensures e.opcion != Some(1) && e.opcion != Some(3) ==> Step(s, e) == s
    ensures e.opcion == Some(1) ==> Step(s, e).continuar == s.continuar
  {
  }

  /** Over any run, the hours stay within bounds. */
  lemma {:induction false} RunBounded(s: State, es: seq<Entrada>)
    requires Bounded(s)
    ensures Bounded(Run(s, es))
    decreases |es|
  {
    if es != [] && s.continuar {
      RegistroBounded(s, es[0].nombre, es[0].horas);
      RunBounded(Step(s, es[0]), es[1..]);
    }
  }

  /** Over any run, the hours never decrease. */
  lemma {:induction false} RunMonotone(s: State, es: seq<Entrada>)
    ensures Run(s, es).horas >= s.horas
    decreases |es|
  {
    if es != [] && s.continuar {
      RunMonotone(Step(s, es[0]), es[1..]);
    }
  }

  /** A run that ends with the loop still going has consumed all its input without an option 3. */
  lemma {:induction false} RunStopsOnlyAtSalir(s: State, es: seq<Entrada>)
    requires s.continuar
    requires forall i :: 0 <= i < |es| ==> es[i].opcion != Some(3)
    ensures Run(s, es).continuar
    decreases |es|
  {
    if es != [] {
      RunStopsOnlyAtSalir(Step(s, es[0]), es[1..]);
    }
  }

  /** The script's globals, changed in place by the menu's handlers. */
  class Tracker {
    var horasAcumuladas: int
    var nombreEstudiante: Option<string>
    var continuar: bool

    function Snapshot(): State
      reads this
    {
      State(horasAcumuladas, nombreEstudiante, continuar)
    }

    constructor ()
      ensures Snapshot() == Initial
    {
      horasAcumuladas := 0;
      nombreEstudiante := Some("");
      continuar := true;
    }

    /** registrarHoras, with the name, place and parsed hours the prompts would return. */
    method RegistrarHoras(nombre: Option<string>, lugar: Option<string>, horas: Option<int>) returns (o: RegistroOutcome)
      modifies this
      ensures Snapshot() == AfterRegistro(old(Snapshot()), nombre, horas)
      ensures o == AlreadyComplete <==> old(horasAcumuladas) >= HORAS_REQUERIDAS
      ensures o == InvalidHours <==> old(horasAcumuladas) < HORAS_REQUERIDAS && (horas.None? || horas.value <= 0)
      ensures o.Recorded? ==>
                && o.lugar == lugar && o.acumuladas == horasAcumuladas
                && o.registradas == horasAcumuladas - old(horasAcumuladas) > 0
                && o.exceso == old(horasAcumuladas) + horas.value - horasAcumuladas >= 0
                && (o.exceso > 0 ==> horasAcumuladas == HORAS_REQUERIDAS)
    {
      if horasAcumuladas >= HORAS_REQUERIDAS {
        return AlreadyComplete;
      }
      if nombreEstudiante == Some("") {
        nombreEstudiante := nombre;
      }
      if horas.None? || horas.value <= 0 {
        return InvalidHours;
      }
      var h := horas.value;
      var exceso := 0;
      if horasAcumuladas + h > HORAS_REQUERIDAS {
        exceso := horasAcumuladas + h - HORAS_REQUERIDAS;
        h := HORAS_REQUERIDAS - horasAcumuladas;
      }
      horasAcumuladas := horasAcumuladas + h;
      if horasAcumuladas >= HORAS_REQUERIDAS {
        horasAcumuladas := HORAS_REQUERIDAS;
      }
      o := Recorded(lugar, h, exceso, horasAcumuladas);
    }

    /** consultarHoras: reads the globals only. */
    method ConsultarHoras() returns (o: ConsultaOutcome)
      ensures o == NoRecords <==> nombreEstudiante == Some("")
      ensures o.Report? ==>
                && o.nombre == nombreEstudiante && o.acumuladas == horasAcumuladas
                && o.faltan == HORAS_REQUERIDAS - horasAcumuladas
                && (o.completo <==> horasAcumuladas >= HORAS_REQUERIDAS)
    {
      if nombreEstudiante == Some("") {
        return NoRecords;
      }
      o := Report(nombreEstudiante, horasAcumuladas, HORAS_REQUERIDAS - horasAcumuladas,
                  horasAcumuladas >= HORAS_REQUERIDAS);
    }

    /** One pass of the loop's switch. */
    method Paso(e: Entrada) returns (o: MenuOutcome)
      modifies this
      ensures Snapshot() == Step(old(Snapshot()), e)
      ensures o == Salida <==> e.opcion == Some(3)
      ensures o == OpcionInvalida <==> e.opcion !in {Some(1), Some(2), Some(3)}
      ensures o.Registro? <==> e.opcion == Some(1)
      ensures o.Consulta? <==> e.opcion == Some(2)
      ensures o.Registro? ==>
                && (o.r == AlreadyComplete <==> old(horasAcumuladas) >= HORAS_REQUERIDAS)
                && (o.r == InvalidHours <==>
                      old(horasAcumuladas) < HORAS_REQUERIDAS && (e.horas.None? || e.horas.value <= 0))
                && (o.r.Recorded? ==>
                      && o.r.lugar == e.lugar && o.r.acumuladas == horasAcumuladas
                      && o.r.registradas == horasAcumuladas - old(horasAcumuladas) > 0
                      && o.r.exceso == old(horasAcumuladas) + e.horas.value - horasAcumuladas >= 0)
      ensures o.Consulta? ==>
                && (o.c == NoRecords <==> old(nombreEstudiante) == Some(""))
                && (o.c.Report? ==>
                      && o.c.nombre == old(nombreEstudiante) && o.c.acumuladas == old(horasAcumuladas)
                      && o.c.faltan == HORAS_REQUERIDAS - old(horasAcumuladas)
                      && (o.c.completo <==> old(horasAcumuladas) >= HORAS_REQUERIDAS))
    {
      match e.opcion
      case Some(1) =>
        var r := RegistrarHoras(e.nombre, e.lugar, e.horas);
        o := Registro(r);
      case Some(2) =>
        var c := ConsultarHoras();
        o := Consulta(c);
      case Some(3) =>
        continuar := false;
        o := Salida;
      case _ =>
        o := OpcionInvalida;
    }

    /** The main loop, over the answers available: `while (continuar)`, one entry per pass. */
    method Ejecutar(entradas: seq<Entrada>) returns (outcomes: seq<MenuOutcome>)
      modifies this
      ensures Snapshot() == Run(old(Snapshot()), entradas)
      ensures old(Bounded(Snapshot())) ==> Bounded(Snapshot())
      ensures horasAcumuladas >= old(horasAcumuladas)
      ensures |outcomes| <= |entradas|
      ensures old(continuar) && continuar ==> |outcomes| == |entradas|
      ensures !continuar && |outcomes| > 0 ==> outcomes[|outcomes| - 1] == Salida
    {
      outcomes := [];
      var i := 0;
      if Bounded(Snapshot()) {
        RunBounded(Snapshot(), entradas);
      }
      RunMonotone(Snapshot(), entradas);
      while continuar && i < |entradas|
        invariant 0 <= i <= |entradas| && |outcomes| == i
        invariant Run(Snapshot(), entradas[i..]) == Run(old(Snapshot()), entradas)
        invariant old(continuar) && !continuar ==> i > 0 && outcomes[i - 1] == Salida
        invariant !old(continuar) ==> i == 0 && !continuar
        decreases |entradas| - i
      {
        assert entradas[i..][1..] == entradas[i + 1..];
        var o := Paso(entradas[i]);
        outcomes := outcomes + [o];
        i := i + 1;
      }
    }
  }
}
