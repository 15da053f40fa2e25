// The session effect of src/context/Layout.tsx: whenever `usuario` changes,
// a logged-in user gets the "reservas", "servicios" and "Contactar" windows;
// without a user every window is closed and only "Contactar" is reopened.
module Layout {
  import opened Comun
  import opened Tipos
  import opened VentanaContext

  /** The registry after the three opens of the logged-in branch. */
  function ConUsuario(vs: seq<Ventana>): (r: seq<Ventana>)
    ensures |vs| <= |r| <= |vs| + 3
    ensures Existe(r, "reservas") && Existe(r, "servicios") && Existe(r, "Contactar")
  {
    var r1 := Abrir(vs, "reservas", "Mis Reservas", ReservasClientFlotante, Completa);
    var r2 := Abrir(r1, "servicios", "Mis servicio", ServiciosClientFlotante, Completa);
    Abrir(r2, "Contactar", "Contactanos", ContactoFlotante, Completa)
  }

  /** The registry after the logged-out branch: close all, then open "Contactar" with the default tipo. */
  function SinUsuario(): (r: seq<Ventana>)
    ensures |r| == 1 && Existe(r, "Contactar")
  {
    Abrir([], "Contactar", "Contactanos", ContactoFlotante, Completa)
  }

  /** `useEffect(() => { if (usuario) { ... } else { ... } }, [usuario])`. */
  method EfectoSesion(registro: VentanaRegistro, usuario: Option<Usuario>)
    requires registro.Valid()
    modifies registro
    ensures registro.Valid()
    ensures registro.ventanas == if usuario.Some? then ConUsuario(old(registro.ventanas)) else SinUsuario()
  {
    if usuario.Some? {
      registro.AbrirVentana("reservas", "Mis Reservas", ReservasClientFlotante, Completa);
      registro.AbrirVentana("servicios", "Mis servicio", ServiciosClientFlotante, Completa);
      registro.AbrirVentana("Contactar", "Contactanos", ContactoFlotante, Completa);
    } else {
      registro.CerrarTodasLasVentanas();
      registro.AbrirVentana("Contactar", "Contactanos", ContactoFlotante);
    }
  }

  /** After the logged-in branch the three session windows are open as "completa" windows with their titles and components. */
  lemma ConUsuarioAbreTres(vs: seq<Ventana>)
    ensures var r := ConUsuario(vs);
      Abierta(r, "reservas", "Mis Reservas", ReservasClientFlotante, Completa)
      && Abierta(r, "servicios", "Mis servicio", ServiciosClientFlotante, Completa)
      && Abierta(r, "Contactar", "Contactanos", ContactoFlotante, Completa)
  {
    var r1 := Abrir(vs, "reservas", "Mis Reservas", ReservasClientFlotante, Completa);
    var r2 := Abrir(r1, "servicios", "Mis servicio", ServiciosClientFlotante, Completa);
    AbrirConservaAbierta(r1, "servicios", "Mis servicio", ServiciosClientFlotante, Completa,
                         "reservas", "Mis Reservas", ReservasClientFlotante, Completa);
    AbrirConservaAbierta(r2, "Contactar", "Contactanos", ContactoFlotante, Completa,
                         "reservas", "Mis Reservas", ReservasClientFlotante, Completa);
    AbrirConservaAbierta(r2, "Contactar", "Contactanos", ContactoFlotante, Completa,
                         "servicios", "Mis servicio", ServiciosClientFlotante, Completa);
  }

  /** From an empty registry, the logged-in branch gives exactly the three windows, in order. */
  lemma ConUsuarioDesdeVacio()
    ensures ConUsuario([]) == [
      Ventana("reservas", "Mis Reservas", ReservasClientFlotante, Some(Completa)),
      Ventana("servicios", "Mis servicio", ServiciosClientFlotante, Some(Completa)),
      Ventana("Contactar", "Contactanos", ContactoFlotante, Some(Completa))]
  {
    var r1 := Abrir([], "reservas", "Mis Reservas", ReservasClientFlotante, Completa);
    assert r1 == [Ventana("reservas", "Mis Reservas", ReservasClientFlotante, Some(Completa))];
    assert !Existe(r1, "servicios") by { assert r1[0].id != "servicios"; }
    var r2 := Abrir(r1, "servicios", "Mis servicio", ServiciosClientFlotante, Completa);
    assert r2 == r1 + [Ventana("servicios", "Mis servicio", ServiciosClientFlotante, Some(Completa))];
    assert !Existe(r2, "Contactar") by { assert r2[0].id != "Contactar" && r2[1].id != "Contactar"; }
  }

  /** The logged-in branch closes nothing: every other window (a "reserva-N" form, say) stays where it was. */
  lemma ConUsuarioConservaOtras(vs: seq<Ventana>, i: nat)
    requires i < |vs| && vs[i].id !in {"reservas", "servicios", "Contactar"}
    ensures i < |ConUsuario(vs)| && ConUsuario(vs)[i] == vs[i]
  {
  }

  /** Running the logged-in branch again changes nothing, so it never duplicates a window. */
  lemma ConUsuarioIdempotente(vs: seq<Ventana>)
    ensures ConUsuario(ConUsuario(vs)) == ConUsuario(vs)
  {
    var r := ConUsuario(vs);
    ConUsuarioAbreTres(vs);
    AbrirIdempotente(r, "reservas", "Mis Reservas", ReservasClientFlotante, Completa);
    AbrirIdempotente(r, "servicios", "Mis servicio", ServiciosClientFlotante, Completa);
    AbrirIdempotente(r, "Contactar", "Contactanos", ContactoFlotante, Completa);
  }

  /** The logged-out branch leaves exactly one window: "Contactar", titled "Contactanos", of the default tipo "completa". */
  lemma SinUsuarioSoloContactar()
    ensures SinUsuario() == [Ventana("Contactar", "Contactanos", ContactoFlotante, Some(Completa))]
  {
  }
}
