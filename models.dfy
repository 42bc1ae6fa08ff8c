/** What the model keeps of a Keras network: only the sizes it was built with. */
module Models {

  /** A network of `units` LSTM cells reading windows of `inputWidth` steps, with a dense output layer
      of `outputWidth` values. Its weights and training are not part of the model. */
  datatype Network = Network(units: nat, inputWidth: nat, outputWidth: nat)
}
