/** The environmental-impact measurement that the impact-accounting library attaches to
    every language-model completion: four named quantities, each a value with a unit. */
module EnvImpacts {

  /** One quantity.  The library reports floats; the model uses reals, so that adding
      two measurements is exact addition. */
  datatype Measurement = Measurement(name: string, value: real, unit: string)

  /** The `impacts` object of a completion: energy, global warming potential (gwp),
      abiotic resource depletion for elements (adpe) and primary energy (pe). */
  datatype Impacts = Impacts(energy: Measurement, gwp: Measurement, adpe: Measurement, pe: Measurement)

  datatype Quantity = Energy | Gwp | Adpe | Pe

  /** The order in which the service reports the four quantities. */
  const Order: seq<Quantity> := [Energy, Gwp, Adpe, Pe]

  /** The measurement of quantity `q` in `impacts` (`impacts.energy`, `impacts.gwp`, ...). */
  function Pick(impacts: Impacts, q: Quantity): Measurement
  {
    match q
    case Energy => impacts.energy
    case Gwp => impacts.gwp
    case Adpe => impacts.adpe
    case Pe => impacts.pe
  }
}
