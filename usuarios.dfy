/** The session user record the contexts read (`user` of the user context). */
module Usuarios {
  import opened Wrappers

  datatype Colaborador = Colaborador(id: Option<string>)

  datatype Usuario = Usuario(
    id: Option<string>,
    token: Option<string>,
    rol: Option<string>,
    colaborador: Option<Colaborador>)

  const RolColaborador: string := "COLABORADOR"

  /** `user?.colaborador?.id` */
  function ColaboradorId(user: Option<Usuario>): (r: Option<string>)
    ensures r.Some? ==> user.Some? && user.value.colaborador == Some(Colaborador(r))
  {
    if user.Some? && user.value.colaborador.Some? then user.value.colaborador.value.id else None
  }

  /** `user?.rol === "COLABORADOR"` */
  predicate EsColaborador(user: Option<Usuario>) {
    user.Some? && user.value.rol == Some(RolColaborador)
  }
}
