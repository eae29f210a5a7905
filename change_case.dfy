/** The three functions of the `change-case` package the adapter calls. They
    belong to an external library, so the model takes them as parameters and
    assumes nothing about them. */
module ChangeCase {

  datatype CaseFns = CaseFns(
    pascal: string -> string,   // pascalCase
    param: string -> string,    // paramCase
    snake: string -> string)    // snakeCase
}
