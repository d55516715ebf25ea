/** Dates as the application reads them after `new Date(x)`: the parse itself is
    JavaScript's and is not modelled, so a date arrives either invalid or as its
    local calendar fields. */
module Fechas {

  /** `mes` counts from 0 as `getMonth()` does; `dia` is `getDate()`. */
  datatype Fecha = Invalida | Valida(anio: int, mes: int, dia: int)

  /** The ranges the getters of a valid `Date` always return. */
  predicate Bien(f: Fecha) {
    f.Valida? ==> 0 <= f.mes < 12 && 1 <= f.dia <= 31
  }

  /** A date field as it travels in JSON: its text, and the `Date` that
      `new Date(texto)` yields for it. */
  datatype FechaTexto = FechaTexto(texto: string, valor: Fecha)
}
