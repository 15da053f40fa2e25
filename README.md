# Hotel booking client: a verified model

This project models, in Dafny, the client-side core of a small React/TypeScript
hotel booking application. The model covers:

- the floating-window registry (`VentanaContext`);
- its two views: the minimisable overlay (`VentanasFlotantes`) and the simple
  windows (`VentanasSimples`);
- the login/logout effect that fills the registry (`Layout`);
- the session kept in local storage (`AuthContext`);
- the reservation pages (`ReservasClient`, `FormularioReserva`, `ListaReserva`);
- the selected extra services (`ServiciosClient`);
- the dashboard aggregation (`dashboardService.loadClientDashboardData` and
  `DashboardClient`);
- login and registration (`Login`);
- guest reviews (`Opiniones`);
- the room catalogue (`HabitacionesClient`).

Each React component whose state changes step by step is a Dafny `class`. Its
`useState` values are fields, and each handler is a `method` whose `ensures`
gives the new state as a function of the old one. The list computations those
handlers use (`find`, `map`, `filter`, `reduce`, the max+1 id) are recursive
functions. Lemmas prove what the application relies on:

- window ids stay unique;
- the two window views partition the registry;
- a cancel changes only `estado`, and cancelling twice is the same as once;
- a new reservation id is fresh;
- adding then removing a service restores the list;
- the dashboard total is the sum of the room prices found plus the stored services;
- registering then logging in finds the new user;
- login then logout leaves no stored user.

The environment is modelled as follows:

- `localStorage` is a class holding a `map<string, Valor>` (`Almacenamiento.Almacen`).
- Each `"dashboardUpdate"` broadcast bumps a ghost counter (`Eventos.Canal.emisiones`).
- HTTP replies, `confirm` answers, `Date.now()` and "today" are parameters.
  A failed request is `None`, or a `false` success flag.
- Dates are day numbers, or `Invalida` for an empty input. As with JavaScript
  `Date` objects, every comparison with `Invalida` is false.
- Prices are whole numbers.

Files, one module each: `comun.dfy` (Option, decimal rendering), `tipos.dfy`
(the records of `src/types` and the mock database), `eventos.dfy`,
`almacen.dfy`, `ventana_context.dfy`, `ventanas_flotantes.dfy`,
`ventanas_simples.dfy`, `layout.dfy`, `auth_context.dfy`, `reservas.dfy`
(the reservation logic shared by the three reservation pages),
`reservas_client.dfy`, `formulario_reserva.dfy`, `lista_reserva.dfy`,
`servicios_client.dfy`, `dashboard.dfy`, `dashboard_client.dfy`, `login.dfy`,
`opiniones.dfy`, `habitaciones_client.dfy`.

Where the code and its description differ, the model follows the code:

- `ListaReserva.cancelarReserva` replaces *every* entry with the id by the
  cancelled copy of the first match (`ReservasClient.cancelar` reloads the
  list from the server instead).
- `FormularioReserva.handleSubmit` checks only the dates, with no room check.
- The dashboard's storage-event filter is a prefix test.
- A date left empty passes the submit handler's own checks; only the inputs'
  `required` attribute stops it.

`DashboardClient.cargarDatos` repeats the loop of
`dashboardService.loadClientDashboardData`. The model defines that loop once,
as `Dashboard.LoadClientDashboardData`, and the page's method calls it.

## Model

| member | source | states |
|---|---|---|
| Comun.Primero | src/pages/Client/ReservasClient.tsx:239 | `Array.prototype.find`: succeeds iff some element satisfies the test, and returns the first such element (the reservation, user, duplicate, credential and room lookups all use it) |
| Comun.IntToString | src/pages/Client/HabitacionesClient.tsx:47 | `String(n)` of an integer is non-empty and starts with '-' exactly for negative numbers (used for `reserva-${n}`, `servicios-${id}` and `toString()` id comparisons) |
| Comun.IntToStringInjective | src/pages/Client/ListaReserva.tsx:94 | different integers render to different strings, so comparing ids by `toString()` is comparing the numbers |
| Tipos.SumaPrecios | src/pages/Client/ServiciosClient.tsx:83-86 | the `reduce` total of prices is non-negative for non-negative prices and 0 when all are 0 |
| Tipos.SumaPreciosConcat | src/pages/Client/ServiciosClient.tsx:83-86 | the total of a concatenation is the sum of the totals |
| Almacenamiento.ClaveServicios | src/pages/Client/ServiciosClient.tsx:63 | the key `servicios-${userId}` starts with "servicios-" and has digits after it |
| Almacenamiento.ClaveServiciosInjective | src/pages/Client/ServiciosClient.tsx:63 | two users never share a services key |
| Almacenamiento.UsuarioGuardado | src/context/AuthContext.tsx:23-24 | a user is read back iff the "usuario" key holds a user, and it is that user |
| Almacenamiento.ServiciosGuardados | src/pages/Client/ServiciosClient.tsx:16-21 | a missing `servicios-${userId}` key reads as the empty list; a stored list reads back as itself |
| Almacenamiento.DbGuardada | src/pages/Opiniones.tsx:15-20 | the database is read back iff the "db" key holds one, and it is that value |
| Almacenamiento.Almacen.constructor | src/context/AuthContext.tsx:23 | storage starts with the given contents |
| Almacenamiento.Almacen.SetItem | src/context/AuthContext.tsx:28 | `setItem` binds the key to the value and changes no other key |
| Almacenamiento.Almacen.RemoveItem | src/context/AuthContext.tsx:33 | `removeItem` deletes the key and changes no other key |
| Eventos.Canal.constructor | src/pages/Client/ServiciosClient.tsx:65 | no broadcast has been emitted yet |
| Eventos.Canal.Emitir | src/pages/Client/ServiciosClient.tsx:65 | one dispatch adds exactly one broadcast |
| VentanaContext.Ids | src/components/VentanasFlotantes.tsx:11-14 | the ids of the registry, one per window in order |
| VentanaContext.Reemplazar | src/components/VentanaContext.tsx:36-40 | the map rewrites titulo, contenido and tipo of exactly the entries with the id and keeps every position |
| VentanaContext.Abrir | src/components/VentanaContext.tsx:28-44 | after `abrirVentana` the id is open with the given fields, the length grows by one iff the id was absent, and other windows keep their positions |
| VentanaContext.Cerrar | src/components/VentanaContext.tsx:47-49 | `cerrarVentana` removes exactly the windows with the id, keeps all others, and is a no-op on an absent id |
| VentanaContext.AbrirNuevo | src/components/VentanaContext.tsx:42 | opening an absent id appends exactly one window at the end |
| VentanaContext.AbrirExistente | src/components/VentanaContext.tsx:36-40 | opening a present id rewrites that entry in place, keeping length and positions |
| VentanaContext.AbrirPreservaUnicos | src/components/VentanaContext.tsx:36-42 | unique ids stay unique after an open |
| VentanaContext.AbrirRepetido | src/components/VentanaContext.tsx:32-42 | of two opens of one id the second call's fields win, so reopening a simple window with the default tipo makes it "completa" |
| VentanaContext.AbrirIdempotente | src/components/VentanaContext.tsx:36-40 | reopening an id with the fields it already has changes nothing |
| VentanaContext.AbrirConservaAbierta | src/components/VentanaContext.tsx:36-42 | opening one id leaves every other open window's fields as they were |
| VentanaContext.CerrarConcat | src/components/VentanaContext.tsx:48 | the close filter works part by part, so the surviving windows keep their order |
| VentanaContext.AbrirCerrarRestaura | src/components/VentanaContext.tsx:42-48 | opening a fresh id and closing it restores the previous list |
| VentanaContext.CerrarPreservaUnicos | src/components/VentanaContext.tsx:47-49 | unique ids stay unique after a close |
| VentanaContext.VentanaRegistro.constructor | src/components/VentanaContext.tsx:26 | the registry starts empty and valid |
| VentanaContext.VentanaRegistro.AbrirVentana | src/components/VentanaContext.tsx:28-44 | the registry becomes `Abrir` of the old one (tipo defaulting to "completa") and keeps ids unique |
| VentanaContext.VentanaRegistro.CerrarVentana | src/components/VentanaContext.tsx:47-49 | the registry becomes `Cerrar` of the old one and keeps ids unique |
| VentanaContext.VentanaRegistro.CerrarTodasLasVentanas | src/components/VentanaContext.tsx:51-53 | the registry becomes empty |
| VentanasFlotantes.VistaFlotante | src/components/VentanasFlotantes.tsx:26-27 | the overlay shows exactly the windows whose tipo is not "simple", including those with no tipo |
| VentanasFlotantes.VistaFlotanteConcat | src/components/VentanasFlotantes.tsx:26-27 | the overlay filter keeps registry order |
| VentanasFlotantes.QuitarId | src/components/VentanasFlotantes.tsx:18 | filtering removes exactly that id and is a no-op when it is absent |
| VentanasFlotantes.Toggle | src/components/VentanasFlotantes.tsx:16-22 | after a toggle the id is listed iff it was not, and no other id's membership changes |
| VentanasFlotantes.QuitarIdSinDuplicados | src/components/VentanasFlotantes.tsx:18 | removing an id keeps a duplicate-free list duplicate-free |
| VentanasFlotantes.ToggleSinDuplicados | src/components/VentanasFlotantes.tsx:17-21 | toggling keeps `minimizadas` duplicate-free |
| VentanasFlotantes.ToggleDosVeces | src/components/VentanasFlotantes.tsx:16-22 | toggling an id twice restores every id's membership |
| VentanasFlotantes.ToggleDosVecesAusente | src/components/VentanasFlotantes.tsx:16-22 | toggling an absent id twice gives back exactly the original list |
| VentanasFlotantes.QuitarIdConcatFinal | src/components/VentanasFlotantes.tsx:18-20 | filtering an appended id out of a list without it gives the list back |
| VentanasFlotantes.Render | src/components/VentanasFlotantes.tsx:26-60 | one entry per overlay window in order; the bubble is always drawn and the panel iff the id is not minimised |
| VentanasFlotantes.PanelFlotante.constructor | src/components/VentanasFlotantes.tsx:8 | nothing is minimised at first |
| VentanasFlotantes.PanelFlotante.Montar | src/components/VentanasFlotantes.tsx:11-14 | on mount `minimizadas` is the registry's ids in registry order |
| VentanasFlotantes.PanelFlotante.ToggleMinimizar | src/components/VentanasFlotantes.tsx:16-22 | only `minimizadas` changes, by `Toggle`; the registry is untouched |
| VentanasFlotantes.MontarSinDuplicados | src/components/VentanasFlotantes.tsx:11-14 | with unique window ids the mounted `minimizadas` has no duplicates |
| VentanasSimples.VistaSimple | src/components/VentanasSimples.tsx:10-12 | the view shows exactly the windows whose tipo is "simple" |
| VentanasSimples.VistaSimpleConcat | src/components/VentanasSimples.tsx:10-12 | the simple view keeps registry order |
| VentanasSimples.NoSimpleNoSeMuestra | src/components/VentanasSimples.tsx:11 | a window with no tipo or tipo "completa" never shows here |
| VentanasSimples.VistasParticionan | src/components/VentanasSimples.tsx:11 | every window is shown by exactly one of the two views: multisets and lengths add up to the registry's |
| VentanasSimples.VistasParticionanMultiset | src/components/VentanasSimples.tsx:11 | the two views' multisets add up to the registry's |
| VentanasSimples.Render | src/components/VentanasSimples.tsx:13-25 | one card per simple window in order, always expanded |
| VentanasSimples.CerrarDesdeVista | src/components/VentanasSimples.tsx:17 | the registry becomes `Cerrar` of the old one at the id of the window at position k of the simple view: that window is gone, nothing is added, and every other window stays in order |
| Layout.EfectoSesion | src/context/Layout.tsx:18-47 | with a user the registry becomes `ConUsuario` of the old one, without one it becomes `SinUsuario` |
| Layout.ConUsuario | src/context/Layout.tsx:19-37 | the logged-in branch leaves "reservas", "servicios" and "Contactar" open and adds no window besides those three |
| Layout.SinUsuario | src/context/Layout.tsx:38-46 | the logged-out branch leaves exactly one window, "Contactar" |
| Layout.ConUsuarioAbreTres | src/context/Layout.tsx:19-37 | after the logged-in branch "reservas", "servicios" and "Contactar" are open as "completa" windows with their titles and components |
| Layout.ConUsuarioDesdeVacio | src/context/Layout.tsx:19-37 | from an empty registry the result is exactly those three windows in order |
| Layout.ConUsuarioConservaOtras | src/context/Layout.tsx:19-37 | the logged-in branch closes nothing: any other window keeps its place and contents |
| Layout.ConUsuarioIdempotente | src/context/Layout.tsx:19-37 | running the logged-in branch again changes nothing |
| Layout.SinUsuarioSoloContactar | src/context/Layout.tsx:38-46 | the logged-out branch leaves only "Contactar", titled "Contactanos", tipo "completa" |
| AuthContext.TrasLogin | src/context/AuthContext.tsx:27-30 | after `login(u)` storage holds u under "usuario" and every other key is unchanged |
| AuthContext.TrasLogout | src/context/AuthContext.tsx:32-35 | after `logout` the "usuario" key is gone and every other key is unchanged |
| AuthContext.LoginLogout | src/context/AuthContext.tsx:27-35 | login then logout leaves no stored user and the same storage as a logout alone |
| AuthContext.DosLogins | src/context/AuthContext.tsx:27-30 | of two logins only the second user is stored |
| AuthContext.AuthContextState.constructor | src/context/AuthContext.tsx:20 | there is no user at first |
| AuthContext.AuthContextState.CargarInicial | src/context/AuthContext.tsx:22-25 | a stored user becomes current; with none stored the user is left as it was (null at mount) |
| AuthContext.AuthContextState.Login | src/context/AuthContext.tsx:27-30 | storage becomes `TrasLogin` and the user is u |
| AuthContext.AuthContextState.Logout | src/context/AuthContext.tsx:32-35 | storage becomes `TrasLogout` and the user is null |
| Reservas.DeFormulario | src/pages/Client/ReservasClient.tsx:173-177 | `{ ...form, usuarioId, id }` carries the given id and user, and its other fields give the form back |
| Reservas.Verdadero | src/pages/Client/ReservasClient.tsx:172 | JavaScript truthiness of a number or null, as in `if (editandoId)` and `if (habitacionPreseleccionada)` (line 69): a value is needed, and 0 is false |
| Reservas.ValidarFechas | src/pages/Client/ReservasClient.tsx:153-161 | the result is no error or one of the two date messages; no error means neither date comparison fired |
| Reservas.ValidarFechasAcepta | src/pages/Client/ReservasClient.tsx:153-161 | for real dates, the checks pass iff today <= check-in < check-out |
| Reservas.ValidarFechasIngreso | src/pages/Client/ReservasClient.tsx:153-156 | a check-in before today gets its message whatever the check-out; a check-in equal to today passes that check |
| Reservas.ValidarFechasSalida | src/pages/Client/ReservasClient.tsx:158-161 | a check-out on or before the check-in gets its message |
| Reservas.MaxId | src/pages/Client/FormularioReserva.tsx:131-134 | `Math.max` of the ids bounds every id and is one of them |
| Reservas.SiguienteId | src/pages/Client/FormularioReserva.tsx:131-137 | the new id is 1 for an empty list, otherwise max + 1: greater than every id |
| Reservas.SiguienteIdFresco | src/pages/Client/FormularioReserva.tsx:131-140 | appending a reservation with the new id keeps ids unique |
| Reservas.ComoCancelada | src/pages/Client/ReservasClient.tsx:246-249 | the cancelled copy has estado "Cancelada" and is otherwise the same reservation |
| Reservas.BuscarPorId | src/pages/Client/ReservasClient.tsx:239 | `find` succeeds iff some reservation has the id, and returns the first one |
| Reservas.ReemplazarPorId | src/pages/Client/ListaReserva.tsx:59-61 | the map replaces exactly the entries with the id and keeps length and positions |
| Reservas.EliminarPorId | src/pages/Client/ListaReserva.tsx:74 | the filter removes exactly the entries with the id; an absent id changes nothing |
| Reservas.EliminarPorIdConcat | src/pages/Client/ListaReserva.tsx:74 | the delete filter works part by part, so survivors keep their order |
| Reservas.CancelarSoloEstado | src/pages/Client/ListaReserva.tsx:56-61 | with unique ids a cancel keeps length and order, sets the matching reservation's estado to "Cancelada" and changes nothing else |
| Reservas.ReemplazarSinEfecto | src/pages/Client/ListaReserva.tsx:59-61 | replacing entries by the value they already hold changes nothing |
| Reservas.CancelarIdempotente | src/pages/Client/ListaReserva.tsx:56-61 | cancelling twice gives the same list as cancelling once |
| Reservas.PeticionCancelar | src/pages/Client/ReservasClient.tsx:238-249 | an update is sent iff the id is in the list; it targets that id and carries a listed reservation with estado "Cancelada" |
| Reservas.CancelarEnLista | src/pages/Client/ListaReserva.tsx:56-61 | the list keeps its length, entries with another id are untouched, and every entry with the id keeps it and is now "Cancelada" |
| Reservas.HabitacionInicial | src/pages/Client/ReservasClient.tsx:25-30 | `habitacionPreseleccionada \|\| 0`: the preselection when truthy, otherwise 0 |
| Reservas.HabitacionAlMontar | src/pages/Client/ReservasClient.tsx:57-82 | a URL room wins when not floating; otherwise a truthy preselection; otherwise the room stays |
| Reservas.Disponibles | src/services/reservasClientService.ts:12-15 | exactly the rooms whose estado is "Disponible" are kept (the same filter is in src/services/reservaFormService.ts:15) |
| Reservas.DisponiblesConcat | src/services/reservasClientService.ts:14 | the filter keeps the server's order |
| ReservasClient.ValidarOrden | src/pages/Client/ReservasClient.tsx:153-167 | the form passes iff the dates pass and a room is chosen; a date failure wins over the room check |
| ReservasClient.ValidarAceptaHoy | src/pages/Client/ReservasClient.tsx:153-167 | a stay from today to tomorrow in a chosen room is accepted |
| ReservasClient.ValidarFechaVacia | src/pages/Client/ReservasClient.tsx:148-161 | an empty date passes the handler's own checks, since every comparison with it is false |
| ReservasClient.Validar | src/pages/Client/ReservasClient.tsx:153-167 | the result is no error or one of the three messages, and an accepted form has a room |
| ReservasClient.EditarYEnviar | src/pages/Client/ReservasClient.tsx:172-178 | editing a reservation and submitting sends an update of that id carrying the reservation with the current user as usuarioId |
| ReservasClient.EditarIdCero | src/pages/Client/ReservasClient.tsx:172 | a reservation with id 0 cannot be edited: the submit creates instead |
| ReservasClient.PeticionEnvio | src/pages/Client/ReservasClient.tsx:172-186 | an update exactly when editing, under `editandoId`, carrying the current user and the form; otherwise a create of the form without id |
| ReservasClient.FormDe | src/pages/Client/ReservasClient.tsx:228-236 | the form `editar` loads, completed with the reservation's id and user, gives that reservation back |
| ReservasClient.ReservasClientState.constructor | src/pages/Client/ReservasClient.tsx:21-31 | no user, empty lists and error, no edit, the form on the preselected room or 0 |
| ReservasClient.ReservasClientState.Montar | src/pages/Client/ReservasClient.tsx:57-82 | with a stored user: adopt it and set the form's room by `HabitacionAlMontar`; without one nothing changes |
| ReservasClient.ReservasClientState.SincronizarPreseleccion | src/pages/Client/ReservasClient.tsx:113-124 | a floating form with a truthy preselection takes it as its room; otherwise the form is unchanged |
| ReservasClient.ReservasClientState.CargarReservas | src/pages/Client/ReservasClient.tsx:48-55 | a reply replaces the list; a failure leaves it |
| ReservasClient.ReservasClientState.CargarHabitaciones | src/pages/Client/ReservasClient.tsx:38-45 | a reply's available rooms replace the list; a failure leaves it |
| ReservasClient.ReservasClientState.HandleSubmit | src/pages/Client/ReservasClient.tsx:144-216 | no user: nothing; a failed check: its message and nothing sent; otherwise the error is cleared and the create or update is sent, and on acceptance a floating create closes "reservas", one broadcast is emitted and the form and editandoId reset |
| ReservasClient.ReservasClientState.Editar | src/pages/Client/ReservasClient.tsx:228-236 | the four fields go into the form and the id becomes editandoId |
| ReservasClient.ReservasClientState.Cancelar | src/pages/Client/ReservasClient.tsx:238-264 | a confirmed cancel sends `PeticionCancelar`; an unknown id sends nothing; one broadcast iff sent and accepted |
| ReservasClient.ReservasClientState.Eliminar | src/pages/Client/ReservasClient.tsx:126-142 | a confirmed delete is sent; one broadcast iff confirmed and accepted |
| FormularioReserva.CrearIdFresco | src/pages/Client/FormularioReserva.tsx:131-140 | a create carries an id above every listed id, so appending it keeps ids unique |
| FormularioReserva.CrearAnade | src/pages/Client/FormularioReserva.tsx:140 | a create appends the server's answer and leaves every earlier entry |
| FormularioReserva.ActualizarReemplaza | src/pages/Client/FormularioReserva.tsx:126-128 | an update keeps the length and replaces exactly the entries with editandoId |
| FormularioReserva.GuardaEsNoFlotante | src/pages/Client/FormularioReserva.tsx:159 | the trailing broadcast's guard reduces to `!modoFlotante` because `cerrarVentana` is always truthy |
| FormularioReserva.EmisionesCrear | src/pages/Client/FormularioReserva.tsx:143-162 | an accepted create emits exactly one broadcast in either mode; a floating update emits none |
| FormularioReserva.PeticionEnvio | src/pages/Client/FormularioReserva.tsx:116-137 | the request carries `{ ...form, usuarioId }`; an update exactly when editing, under `editandoId`; otherwise a create with id `SiguienteId` of the list, above every id in it |
| FormularioReserva.ListaTrasEnvio | src/pages/Client/FormularioReserva.tsx:126-140 | an update keeps the list's length; a create appends the server's answer at the end |
| FormularioReserva.GuardaEmisionFinal | src/pages/Client/FormularioReserva.tsx:159 | the guard `!modoFlotante \|\| (modoFlotante && !cerrarVentana)` is just `!modoFlotante \|\| !cerrarVentana` |
| FormularioReserva.EmisionesEnvio | src/pages/Client/FormularioReserva.tsx:143-162 | an accepted submit emits at most two broadcasts, and none exactly when it is a floating update |
| FormularioReserva.FormularioReservaState.constructor | src/pages/Client/FormularioReserva.tsx:21-31 | no user, empty lists, no error, no edit, the form on the preselected room or 0 |
| FormularioReserva.FormularioReservaState.Montar | src/pages/Client/FormularioReserva.tsx:37-83 | with a stored user: adopt it, set the room by `HabitacionAlMontar`, take the reservations if that request succeeded and the rooms filtered by `Disponibles` if that one did, so every room offered is available |
| FormularioReserva.FormularioReservaState.SincronizarPreseleccion | src/pages/Client/FormularioReserva.tsx:85-92 | a floating form with a truthy preselection takes it as its room |
| FormularioReserva.FormularioReservaState.HandleSubmit | src/pages/Client/FormularioReserva.tsx:94-167 | no user: nothing; a failed date check: its message only; otherwise the create (fresh id) or update is sent, and on acceptance the answer enters the list, the form resets, a floating create closes "reservas", and `EmisionesEnvio` broadcasts are emitted |
| ListaReserva.ComoTexto | src/pages/Client/ListaReserva.tsx:94 | `?.toString()` is undefined exactly for a missing id |
| ListaReserva.MismoId | src/pages/Client/ListaReserva.tsx:94 | equal ids match, and a missing id matches only a missing id |
| ListaReserva.NumeroCoincideConTexto | src/pages/Client/ListaReserva.tsx:94 | numeric 5 matches "5" but not "05" |
| ListaReserva.NumerosCoinciden | src/pages/Client/ListaReserva.tsx:94 | two numeric ids match as strings iff they are equal |
| ListaReserva.AusenteCoincide | src/pages/Client/ListaReserva.tsx:94 | a missing id matches only another missing id |
| ListaReserva.HabitacionDe | src/pages/Client/ListaReserva.tsx:94 | the room lookup succeeds iff some room has the id, and returns the first one |
| ListaReserva.Render | src/pages/Client/ListaReserva.tsx:94-161 | one row per reservation in order with its room; the controls are shown iff estado is not "Cancelada" |
| ListaReserva.OfreceAcciones | src/pages/Client/ListaReserva.tsx:161 | the cancel and delete controls are shown exactly for "Pendiente" and "Confirmada" reservations |
| ListaReserva.CancelarRetiraAcciones | src/pages/Client/ListaReserva.tsx:56-61 | after a cancel no reservation with that id offers the controls |
| ListaReserva.ListaReservaState.constructor | src/pages/Client/ListaReserva.tsx:10-12 | no user and empty lists |
| ListaReserva.ListaReservaState.CargarDatos | src/pages/Client/ListaReserva.tsx:14-25 | both lists are replaced when both requests succeed; otherwise neither changes |
| ListaReserva.ListaReservaState.Montar | src/pages/Client/ListaReserva.tsx:27-44 | a stored user is adopted and its data loaded; without one nothing changes |
| ListaReserva.ListaReservaState.CancelarReserva | src/pages/Client/ListaReserva.tsx:46-67 | a confirmed cancel of a listed id sends `PeticionCancelar`; on acceptance the list becomes `CancelarEnLista` and one broadcast is emitted; otherwise nothing changes |
| ListaReserva.ListaReservaState.EliminarReserva | src/pages/Client/ListaReserva.tsx:69-80 | a confirmed and accepted delete filters the id out and emits once; otherwise nothing changes |
| ServiciosClient.Agregar | src/pages/Client/ServiciosClient.tsx:60-62 | a new id is appended at the end; a present id leaves the list as it is |
| ServiciosClient.QuitarPorId | src/pages/Client/ServiciosClient.tsx:75 | exactly the services with the id are removed; an absent id changes nothing |
| ServiciosClient.QuitarPorIdConcat | src/pages/Client/ServiciosClient.tsx:75 | the remove filter keeps the order of the rest |
| ServiciosClient.AgregarConservaUnicos | src/pages/Client/ServiciosClient.tsx:60-62 | adding keeps the selection free of repeated ids |
| ServiciosClient.QuitarConservaUnicos | src/pages/Client/ServiciosClient.tsx:75 | removing keeps the selection free of repeated ids |
| ServiciosClient.AgregarQuitarRestaura | src/pages/Client/ServiciosClient.tsx:61-75 | adding a fresh service then removing its id restores the list |
| ServiciosClient.TotalTrasAgregar | src/pages/Client/ServiciosClient.tsx:83-86 | the total grows by the service's price exactly when it is added |
| ServiciosClient.ServiciosClientState.constructor | src/pages/Client/ServiciosClient.tsx:11-13 | no user, empty catalogue and selection |
| ServiciosClient.ServiciosClientState.CargarServiciosAgregados | src/pages/Client/ServiciosClient.tsx:16-21 | the selection is the stored list, or empty when the key is missing |
| ServiciosClient.ServiciosClientState.Montar | src/pages/Client/ServiciosClient.tsx:23-35 | only with both "db" and "usuario" stored: adopt the user, the catalogue and the stored selection |
| ServiciosClient.ServiciosClientState.AgregarServicio | src/pages/Client/ServiciosClient.tsx:55-68 | no user or a present id: nothing changes and nothing is emitted; otherwise the service is appended, stored under the user's key and one broadcast is emitted; the total grows by the added price exactly when something was added |
| ServiciosClient.ServiciosClientState.QuitarServicio | src/pages/Client/ServiciosClient.tsx:70-81 | with a user the id is filtered out, stored, and a broadcast emitted even when nothing was removed; without one nothing changes |
| ServiciosClient.ServiciosClientState.TotalServicios | src/pages/Client/ServiciosClient.tsx:83-86 | the shown total is never negative when no price is |
| Dashboard.Detallar | src/services/dashboardService.ts:43-56 | one entry per reservation in order; the room is attached iff its lookup succeeds, and it is the room found |
| Dashboard.ConDetalle | src/services/dashboardService.ts:44-54 | the entry keeps the reservation and carries a room exactly when the lookup succeeds, that room being the server's |
| Dashboard.SumaHalladas | src/services/dashboardService.ts:43-56 | the room total is never negative when no room price is |
| Dashboard.SumaDetalles | src/services/dashboardService.ts:49-50 | entries without an attached room add nothing |
| Dashboard.SumaHalladasConcat | src/services/dashboardService.ts:43-56 | the room total is additive over the reservation list |
| Dashboard.SumaHalladasUna | src/services/dashboardService.ts:50-55 | a failed lookup adds 0 to the total; a found room adds its price |
| Dashboard.SumaHalladasEsDetalle | src/services/dashboardService.ts:49-50 | the room total is the sum of the prices attached to the entries |
| Dashboard.SinHabitacionesHalladas | src/services/dashboardService.ts:51-55 | with no room found the room total is 0 |
| Dashboard.LoadClientDashboardData | src/services/dashboardService.ts:24-77 | a failed reservations request is passed on; otherwise the result is the detailed list, the stored services (empty when missing) and the found room prices plus the services' prices |
| DashboardClient.RecargaPropia | src/pages/Client/DashboardClient.tsx:93 | the user's own services key triggers a reload; a null key never does |
| DashboardClient.RecargaPorPrefijo | src/pages/Client/DashboardClient.tsx:93 | the filter is a prefix test: user 1 reloads for "servicios-12" but not for "servicios-2" nor "usuario" |
| DashboardClient.RecargaSoloServicios | src/pages/Client/DashboardClient.tsx:93 | only a services key whose prefix is the user's key triggers a reload |
| DashboardClient.DebeRecargar | src/pages/Client/DashboardClient.tsx:93 | a reload needs a key at least as long as the user's services key |
| DashboardClient.DashboardClientState.constructor | src/pages/Client/DashboardClient.tsx:15-21 | no user, nothing loaded, total 0 |
| DashboardClient.DashboardClientState.CargarDatos | src/pages/Client/DashboardClient.tsx:23-70 | the aggregation's lists and total, or empty lists and total 0 when the reservations request fails |
| DashboardClient.DashboardClientState.Montar | src/pages/Client/DashboardClient.tsx:73-80 | with no stored user nothing is loaded; otherwise the user is adopted and its data loaded |
| DashboardClient.DashboardClientState.AlCambiarAlmacen | src/pages/Client/DashboardClient.tsx:74-96 | for the user the mount found, a storage event reloads that user's data exactly when `DebeRecargar` holds for that user's id; otherwise nothing changes |
| Login.Duplicado | src/pages/Login.tsx:36-42 | a duplicate is found iff some user has the same nombre or the same correo |
| Login.Credenciales | src/pages/Login.tsx:56-61 | a user is found iff some user matches both correo and contrasena, and it is the first one |
| Login.RegistroNoDuplica | src/pages/Login.tsx:36-50 | a registration that passes the check creates a "cliente" with the form's password whose nombre and correo no user has |
| Login.NuevoUsuario | src/pages/Login.tsx:44-50 | the registered user has id `Date.now()` and role "cliente", and logs in with the form's e-mail and password |
| Login.RegistroLuegoLogin | src/pages/Login.tsx:44-61 | after registering, logging in with the same correo and password finds exactly the new user |
| Login.LoginIgnoraNombre | src/pages/Login.tsx:56-58 | with no user holding that correo no login succeeds, whatever the name |
| Login.LoginState.constructor | src/pages/Login.tsx:15-17 | an empty form in login mode with no error |
| Login.LoginState.HandleSubmit | src/pages/Login.tsx:29-70 | fetch failure: the connection error, nobody logged in; registration: a duplicate is refused with its message, otherwise the new user is posted and logged in; login: the first matching user is logged in, otherwise "Usuario o contraseña incorrectos." |
| Login.LoginState.ToggleModo | src/pages/Login.tsx:146-149 | switching mode flips it and clears the error |
| Opiniones.BuscarUsuario | src/pages/Opiniones.tsx:74-75 | the lookup succeeds iff some user has the id, and returns the first one |
| Opiniones.OpinionesDe | src/pages/Opiniones.tsx:21 | `parsed.opiniones \|\| []`: a missing list reads as empty, a present one as itself |
| Opiniones.Autor | src/pages/Opiniones.tsx:74-75 | the author shown is never empty, and is "Anónimo" without a database |
| Opiniones.AutorEsPrimerUsuario | src/pages/Opiniones.tsx:74-75 | the author shown is the first matching user's non-empty name; with no matching user it is "Anónimo" |
| Opiniones.AutorSinDb | src/pages/Opiniones.tsx:74-75 | with no database every author is "Anónimo" |
| Opiniones.ConOpiniones | src/pages/Opiniones.tsx:45 | the new database has the given reviews and the same users, rooms and services |
| Opiniones.OpinionesState.constructor | src/pages/Opiniones.tsx:8-11 | no database, no reviews, empty comment, rating 5 |
| Opiniones.OpinionesState.Montar | src/pages/Opiniones.tsx:14-31 | a cached database is used as is; otherwise a fetched one is cached and used; a missing review list reads as empty |
| Opiniones.OpinionesState.HandleSubmit | src/pages/Opiniones.tsx:33-51 | with no user or database nothing changes; otherwise one review with the user's id, comment and rating is appended, the cached database gets only its reviews replaced, and the form resets to "" and 5 |
| Opiniones.EnviarLuegoMontar | src/pages/Opiniones.tsx:21-47 | what a submit stores reads back, on the next mount, as exactly the list shown after it |
| HabitacionesClient.MarcarDisponibles | src/pages/Client/HabitacionesClient.tsx:18-21 | every shown room has estado "Disponible" and is otherwise the fetched room, in the same order and number |
| HabitacionesClient.MarcarIdempotente | src/pages/Client/HabitacionesClient.tsx:18-21 | marking twice is marking once |
| HabitacionesClient.IdReserva | src/pages/Client/HabitacionesClient.tsx:47 | the window id is "reserva-" followed by the room id |
| HabitacionesClient.IdReservaInjective | src/pages/Client/HabitacionesClient.tsx:47 | different rooms get different window ids |
| HabitacionesClient.Reservar | src/pages/Client/HabitacionesClient.tsx:45-51 | after `reservar(n)` the window "reserva-n" is open, and at most one window was added |
| HabitacionesClient.ReservarAbreSimple | src/pages/Client/HabitacionesClient.tsx:45-51 | `reservar(n)` leaves "reserva-n" open, titled "Reserva", tipo "simple", with the form for room n, shown by the simple view and not the overlay |
| HabitacionesClient.ReservarDosVeces | src/pages/Client/HabitacionesClient.tsx:47 | reserving the same room twice leaves the registry as one reserve did, with ids still unique |
| HabitacionesClient.ReservarOtraConserva | src/pages/Client/HabitacionesClient.tsx:45-51 | reserving another room keeps this room's window open as it was |
| HabitacionesClient.HabitacionesClientState.constructor | src/pages/Client/HabitacionesClient.tsx:9 | no rooms shown at first |
| HabitacionesClient.HabitacionesClientState.CargarHabitaciones | src/pages/Client/HabitacionesClient.tsx:13-27 | a reply replaces the list by `MarcarDisponibles`; a failure leaves it |
| HabitacionesClient.HabitacionesClientState.ReservarHabitacion | src/pages/Client/HabitacionesClient.tsx:45-52 | the registry becomes `Reservar` of the old one and the rooms are unchanged |

## Left out

- HTTP: every axios/fetch call, including the service wrappers of `src/services`, is replaced by its outcome as a parameter: an `Option` reply, a success flag, or a `map` snapshot of `/habitaciones/:id`. The methods return the request they would send as a `Peticion` value.
- The server-side query filters (`usuarioId=`, `estado_ne=Cancelada`) are properties of the server's reply and are not modelled.
- Event listeners: `addEventListener`/`removeEventListener` and unmount teardown are not modelled. The reloads a broadcast would trigger are separate method calls. A broadcast is a ghost counter, not a subscriber list.
- React scheduling is not modelled: async interleaving, state batching, and stale closures such as the non-functional `setMinimizadas` of `VentanasFlotantes.tsx:18-20`. Each handler runs atomically on the current state.
- Dates are integer day numbers, with `Invalida` for an empty input, and "today" is a parameter. Parsing is not modelled, nor the time-zone difference between `new Date(x + "T00:00:00")` (local midnight, `ReservasClient.tsx:148`) and `new Date(x)` (UTC midnight, `FormularioReserva.tsx:98`).
- Prices are whole numbers. Floating-point sums and `toFixed` formatting are not modelled.
- `JSON.parse`/`stringify` are left out: storage holds typed values. A key holding a value of another kind reads as missing, or as `[]` for a services key.
- `Date.now()`, `confirm` and `alert` are parameters. `navigate` and page redirects are left out.
- Rendering, CSS and routing are left out, apart from which windows, rows and controls are shown: `App.tsx`, `main.tsx`, `Navbar.tsx`, `Footer.tsx`, `Home.tsx` and `Contacto.tsx` (a form reset and a POST).
- `useVentanas`/`useAuth` throw outside their provider; this is not modelled.
- `parseInt` of the URL's `habitacionId` is given as an `Option<int>`; a `NaN` result is not modelled.
- ListaReserva.HabitacionDe: reservation and room ids are `int`, while the source types them `string | number`. `MismoId` defines the `toString()` comparison on all three kinds of JSON id, but the room lookup applies it only to numeric ids, where it is plain equality (`NumerosCoinciden`).
- Opiniones.OpinionesState.HandleSubmit: like the source, it does not update the `db` state. A second submit before a reload therefore writes reviews onto the database as it was at mount.
- VentanaContext.VentanaRegistro.AbrirVentana: React element contents are a small datatype of the four components opened, not arbitrary JSX.
